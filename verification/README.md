# Ardent execution platform: verified model

A Dafny model of the parts of the Ardent agent-execution platform whose behaviour is easiest to get wrong,
with proofs. `dafny verify dfyconfig.toml` checks everything.

**Job pipeline.** `Queue.dfy` holds the Redis lists and their commands; `Pipeline.dfy` is a state machine
of API calls, workers, lists and status rows in which every step is one Redis command or one status write,
in any interleaving, with every failure the code tolerates: a command that reports an error (carried out or
not), a status write that fails, a worker that dies at any point and is later recovered. `Gauges.dfy` counts
weighted copies of jobs over a whole state; `Delivery.dfy` proves conservation, execution bounds and
termination from it; `Lifecycle.dfy` proves what the status column goes through and `Finality.dfy` when its
last status is final, both over runs in which nothing fails that has to do with the request, whatever else
fails; `Continuations.dfy` says what can still happen to a request when anything may fail; `Service.dfy` has
the API call, the worker loop and recovery as objects updated in place, with every statement free to fail,
and shows each to be a run of the machine.
A retry or a move to the dead-letter list taken as one indivisible step is a run that does not break between
its LREM and its LPUSH, so the conservation law for such runs is one half of `Delivery.ExactlyOnePlaceIff`.

**Rate limiter.** `RateLimit.dfy`: the token buckets over real numbers, the eviction task, the rate bound, for
clocks that come in any order.

**Amounts.** `Arithmetic.dfy` and `Bytes.dfy` have words, floors and big-endian bytes; `Decimal.dfy` the
decimal parser and printer; `AaveV3.dfy` the borrow guard and the resolution of `amount=max`; `Slippage.dfy`
the limits derived from quotes; `CompoundV3.dfy` the borrow capacity.

**Compiled batches.** `Allowances.dfy` gives calls a meaning over a wallet's allowances: `approve` of
EIP-20, `approve` of Permit2, and a protocol call that may use up what was opened for it. `Morpho.dfy` and
`BalancerV3.dfy` compile actions; `Engine.dfy` has the batch cap and the sum of native values.

**Discovery and provisioning.** `Selection.dfy`: best-pool folds over arbitrarily ordered candidates.
`Discovery.dfy`: the log decoder and the paging loop. `AgentWallet.dfy`: concurrent get-or-create.

What the proofs found out about the code:

- `src/queue/mod.rs:13` says that a job is never silently lost. A worker that dies between the LREM and the
  LPUSH of a retry loses it (`Delivery.LosingRun`), and so does an LPUSH that fails there; a retry whose LREM
  fails is pushed all the same and the job is listed twice (`Delivery.DuplicatingRun`). These windows are the
  only ones (`Delivery.ExactlyOnePlaceIff`).
- `README.md:200-203` documents pending, queued, broadcasting, then a final status. The API pushes the job
  before it writes `Queued`, so a fast worker can be overtaken by that write and the row then says `Queued`
  for good (`Lifecycle.LateQueuedRegression`). The order is kept exactly when no worker starts on the request
  before that write (`Lifecycle.DocumentedOrderIff`); the final status stays final exactly when no worker
  finishes the request before it (`Finality.TerminalIsFinal`).
- A worker that dies between a final status and the acknowledgement has its job recovered and executed again:
  a confirmed row goes back to `Broadcasting` (`Finality.CrashReopens`), and the second execution's transaction
  hash replaces the recorded one (`Finality.HashReplaced`). When anything may fail, a row is settled exactly
  when its API call has returned and no list and no worker has a job of it (`Continuations.RowIsFixedIff`), and
  its hash exactly when no job of it can be executed any more (`Continuations.HashIsFixedIff`).
- `handle_execute` answers with an error when the `Queued` write fails, or when the push is carried out but
  reported as failed, although the job will be executed (`Service.HandleExecute`).
- The limiter reads its clocks before it locks buckets. When two checks of one key get there in the wrong
  order the seconds between them are credited twice: for every such step back there are limits under which
  the bound burst + rate * length is exceeded (`RateLimit.OutOfOrderBreaksBound`), and the excess is never
  more than the rate times the way back (`RateLimit.RewindBound`). Evictions are invisible as long as no
  check is more than the 60 seconds of grace behind one, and that is exactly what the grace is worth
  (`RateLimit.GraceIsExact`).
- Pool discovery takes an unsuccessful answer with an empty result, on any page after the first, for the end
  of the logs. Such an answer cuts discovery short without an error: pools that only later logs register are
  missing (`Discovery.CutShortMisses`, and `Discovery.DiscoveryLosesPool` for an input). Nothing else does
  (`Discovery.DiscoveryIsLawful`).
- Deposit amounts are validated after trimming white space but ordered without it, so `" 5"` passes the first
  and fails the second (`BalancerV3.PaddedAmountRefused`).

## Model

| member | source | states |
|---|---|---|
| Queue.RedisQueue.EnqueueJob | src/queue/mod.rs:47-52 | LPUSH puts the job at the head of the main list and changes nothing else, and may be carried out although it reports an error |
| Queue.RedisQueue.DequeueJob | src/queue/mod.rs:59-96 | takes the oldest job of the main list and puts it at the head of the worker's processing list; nothing happens on an empty list; a payload that does not parse ends on the dead-letter list as far as those two commands are carried out |
| Queue.RedisQueue.AckJob | src/queue/mod.rs:100-116 | removes the first occurrence of the job from this worker's processing list, if the command is carried out, and says whether there was one |
| Queue.RedisQueue.MoveToDlq | src/queue/mod.rs:122-140 | one occurrence leaves the processing list and the job heads the dead-letter list, whether or not it was found; an error of the removal ends the move |
| Queue.RedisQueue.PushToDlq | src/queue/mod.rs:146-155 | the job heads the dead-letter list if the command is carried out |
| Queue.RedisQueue.RecoverStaleJobs | src/queue/mod.rs:162-191 | the loop leaves the main list as processing ++ main, in the old order, the processing list empty, and returns its old length; an error part way leaves exactly the moves made before it |
| Queue.RedisQueue.RecoverAtStartup | src/main.rs:414-441 | draining workers 0 to n-1 in turn recovers the lists of exactly those workers and counts every job once; the first error ends it, with the lists before it drained and that worker's in part |
| Queue.RecoveredUpToIs | src/main.rs:414-441 | after startup recovery the main list is the stacked processing lists in front of the old main list; lists of higher worker ids are untouched |
| Pipeline.StepInv | src/worker/mod.rs:55-269 | every step, failing ones included, keeps attempt counts in range, the job a worker is at in its processing list, and a row per API call |
| Pipeline.RunInv | src/worker/mod.rs:55-269 | the same over every run |
| Delivery.Accounting | src/queue/mod.rs:8-13 | in every run, copies + acknowledged + lost = pushed + duplicated, per request |
| Delivery.NeverSilentlyLost | src/queue/mod.rs:13 | a pushed request none of whose copies vanished is still listed, held by a worker, or acknowledged |
| Delivery.OnePlaceStep | src/worker/mod.rs:786-857 | from a state with the request in one place, a step leaves it in one place if and only if it is not a loss or a duplication in the LREM-LPUSH window; a loss leads to none, a duplication to two |
| Delivery.ExactlyOnePlaceIff | src/queue/mod.rs:8-13 | a pushed request is in exactly one of main list, a processing list, dead-letter list, a worker's hands and the acknowledged jobs throughout a run if and only if no step of the run breaks it |
| Delivery.LosingRun | src/worker/mod.rs:794-844 | a concrete run from the start after which a pushed, unfinished request is in no list, with no worker and not acknowledged |
| Delivery.DuplicatingRun | src/worker/mod.rs:794-844 | a concrete run after which one request is listed twice |
| Delivery.ExecutionBound | src/queue/mod.rs:33 | in every run a request is started at most MAX_JOB_ATTEMPTS times, plus once per recovery, plus twice per duplication |
| Delivery.TotalExecutionBound | src/queue/mod.rs:33 | the same bound over all requests together |
| Delivery.AttemptDiscipline | src/worker/mod.rs:74-105 | attempt counts of listed jobs stay below the maximum, so the poison-pill guard is unreachable; every dead-letter entry carries exactly the maximum |
| Delivery.CalmRunsTerminate | src/worker/mod.rs:58-269 | without Redis errors and crashes every schedule of the workers ends, within the work there was |
| Delivery.FreshBatchTerminates | src/worker/mod.rs:58-269 | n fresh jobs before idle workers are dealt with in at most 18 n steps, by any schedule |
| Delivery.StuckMeansDone | src/queue/mod.rs:59-116 | when no worker can go on, the main list and every processing list are empty |
| Delivery.FreshBatchDelivered | src/worker/mod.rs:58-269 | n fresh jobs before idle workers: any calm schedule that cannot go on has emptied the main and processing lists, every job is acknowledged or a dead letter with the maximum of attempts, and at most 3 n executions were started |
| Delivery.CalmExecutions | src/queue/mod.rs:33 | without Redis errors and crashes n pushed requests cause at most 3 n executions |
| Lifecycle.DocumentedOrderIff | README.md:200-203 | in a run in which nothing fails that has to do with the request, its statuses follow the documented order if and only if no worker starts on it before the API call has written Queued |
| Lifecycle.TidyUnlessStranded | src/worker/mod.rs:786-857 | exactly when a step leaves a job in a processing list without a worker at it: a move that is carried out but reported as failed, a removal that is not carried out, or a worker's death |
| Lifecycle.SmoothIsUndisturbed | src/worker/mod.rs:55-269 | a run without any failures disturbs no request, so the laws of undisturbed runs hold for all of them |
| Finality.TerminalIsFinal | src/api/services/mod.rs:519-522 | in a run in which nothing fails that has to do with the request, terminal rows never change again if and only if the request is not finished by a worker before a Queued write that follows |
| Finality.TerminalExactlyWhenDone | src/worker/mod.rs:148-265 | in such a run, whatever the other workers are doing, the status of an answered request that no worker is at is terminal exactly when its job has left the main and processing lists, if and only if the run has not overtaken it in that way |
| Finality.RestRun | src/db/mod.rs:177-186 | all that can still happen to the row of a finished request is the Queued write, if it is due |
| Finality.CrashReopens | src/main.rs:112-127 | a run in which a worker dies after Confirmed and before the acknowledgement, and the request is executed again |
| Finality.TimelyNotOvertaken | src/api/services/mod.rs:519-522 | runs that keep the documented order never overtake the request |
| Finality.TxHashIsFixed | src/db/mod.rs:177-186 | a recorded transaction hash never changes in a run in which nothing fails that has to do with the request |
| Finality.HashReplaced | src/db/mod.rs:177-186 | a run with a crash in which a second execution replaces the recorded hash |
| Continuations.ExecutesIffLive | src/worker/mod.rs:55-269 | when anything may fail, a request can be executed, now or later, if and only if its job is still to be pushed, or is in the main list, in a processing list, or held for another attempt |
| Continuations.HashIsFixedIff | src/db/mod.rs:177-186 | when anything may fail, every continuation keeps a request's transaction hash if and only if the request cannot be executed any more in that sense |
| Continuations.RowIsFixedIff | src/db/mod.rs:169-197 | when anything may fail, every continuation keeps a request's row if and only if its API call has returned and no list and no worker has a job of it |
| Lifecycle.TxHashKept | src/db/mod.rs:177-186 | once a transaction hash is recorded there is always one, in any run, whatever fails, though not always the same one |
| Lifecycle.NothingWritesAgain | src/worker/mod.rs:148-265 | once a request has no job anywhere and its API call has returned, no continuation changes its row |
| Lifecycle.LateQueuedRegression | src/api/services/mod.rs:519-522 | a failure-free run in which a confirmed row goes back to Queued and says so in every continuation |
| Service.Database.InsertExecutionRequest | src/db/mod.rs:79-113 | a new row with the given status and no hash |
| Service.Database.UpdateExecutionStatus | src/db/mod.rs:169-197 | the status is overwritten unconditionally, the hash kept unless a new one is given; an unknown id changes nothing, and neither does a failed write |
| Service.HandleExecute | src/api/services/mod.rs:397-545 | for every way its statements can fail: when the call succeeds, which statuses the row gets, and that a job is pushed exactly when the push is reached and carried out, whatever the call answers |
| Service.Worker.ReEnqueueWithBump | src/worker/mod.rs:786-857 | the job is taken out of the processing list and comes back with one more attempt, or, at the maximum, goes to the dead-letter list and the row fails; each command only as far as it is carried out, and no error stops the next |
| Service.Worker.RunOnce | src/worker/mod.rs:55-269 | lists and rows after one whole pass, for every outcome and every way its commands and writes can fail |
| Service.FaultlessRound | src/worker/mod.rs:55-269 | without faults no processing list changes, and the job is acknowledged, retried or buried according to attempt and outcome |
| Service.Worker.Recover | src/main.rs:100-131 | recovery after a death moves the processing list back in order, or, if a command reports an error, its last jobs |
| Service.RoundIsRun | src/worker/mod.rs:55-269 | a pass of the worker loop, whatever fails in it, is a run of the machine, from any state and beside any other workers |
| Service.RoundIsSmooth | src/worker/mod.rs:55-269 | a pass without faults takes only the steps of failure-free runs |
| Service.RecoverIsRun | src/queue/mod.rs:162-191 | draining a dead worker's list, wholly or in part, is a run of single recovery moves |
| Service.ExecuteIsRun | src/api/services/mod.rs:397-545 | an API call, whatever its simulation says and whatever fails in it, is a run of the machine |
| RateLimit.RateLimiter.constructor | src/rate_limit/mod.rs:59-67 | rate is clamped to 0.1 and burst to 1 from below |
| RateLimit.RateLimiter.Check | src/rate_limit/mod.rs:73-98 | refill, cap, take one token or say when to retry; other keys are untouched |
| RateLimit.RateLimiter.EvictStale | src/rate_limit/mod.rs:106-115 | exactly the buckets unused for burst / rate + 60 seconds go |
| RateLimit.EvictionTransparent | src/rate_limit/mod.rs:106-115 | whatever the clocks of evictions and checks, a limiter that evicts answers every check like one that never does, as long as no check is more than 60 seconds behind an earlier eviction |
| RateLimit.GraceIsExact | src/rate_limit/mod.rs:109 | a lag of checks behind evictions is safe for all limits and all runs if and only if it is at most the 60 seconds of grace |
| RateLimit.RewindBound | src/rate_limit/mod.rs:73-98 | in every run, with clocks in any order and any evictions, the allowed requests of one key in an interval number at most burst + rate * length + rate * the way the key's clock is moved back |
| RateLimit.RateBound | src/rate_limit/mod.rs:73-98 | while the key's clock is not moved back, they number at most burst + rate * length |
| RateLimit.BurstIsServed | src/rate_limit/mod.rs:57-58 | n requests of a new key at one moment are all allowed if and only if n is at most the burst |
| RateLimit.RetryAfterExact | src/rate_limit/mod.rs:90-97 | left alone, a refused key is allowed again exactly from the answered moment on |
| RateLimit.OutOfOrderBreaksBound | src/rate_limit/mod.rs:74-87 | for every key and every step back there are limits under which three checks exceed burst + rate * length; for steps of up to ten seconds by exactly the rate times the step |
| RateLimit.RateBoundIsExact | src/rate_limit/mod.rs:73-98 | the bound burst + rate * length holds for all limits and all runs that move a key's clock back by at most d if and only if d is zero |
| Decimal.ParserAcceptsExactly | src/protocols/compound_v3/adapter.rs:937-976 | a string parses to v if and only if, trimmed, it has at most one point, at least one digit, only digits besides, at most k fraction digits and denotes v below 2^256 |
| Decimal.TrimIs | src/protocols/compound_v3/adapter.rs:938 | trimming takes white space off both ends, and all of it |
| Decimal.PrintThenParse | src/protocols/compound_v3/service.rs:981-993 | what the printer prints for v at scale s with k digits parses back to floor(v * 10^k / s), or is refused as too large when that is no word |
| Decimal.PrinterPrintsIff | src/protocols/compound_v3/service.rs:981-993 | when the printer prints at all, and that it prints the whole part, a point and exactly the asked number of digits |
| Decimal.PrintParseIdentity | src/protocols/compound_v3/service.rs:981-993 | at s = 10^k the round trip is the identity |
| AaveV3.GuardIsTheCap | src/protocols/aave_v3/service.rs:402-436 | the guard accepts an amount if and only if its base value lies between one unit and the target of amount=max |
| AaveV3.MaxPassesGuard | src/protocols/aave_v3/service.rs:336-386 | whenever amount=max resolves, the guard meets no overflow, availability or health limit; only a base value of zero is refused, and the base value misses the target by at most ceil(price / 10^decimals) |
| AaveV3.ExplicitAmountIff | src/protocols/aave_v3/service.rs:357-436 | an explicit amount passes if and only if its base value lies between one unit and that target |
| AaveV3.BorrowAllowedIff | src/protocols/aave_v3/service.rs:402-436 | in the account's own figures: an explicit amount is let through if and only if its base value b is at least 1 and at most what is available, the liquidation-threshold-weighted collateral over debt + b is at least the minimum, and the products fit a word |
| AaveV3.MaxResolvesIff | src/protocols/aave_v3/service.rs:336-386 | in the account's own figures: amount=max resolves to a if and only if a is positive and the most tokens whose value does not exceed both what is available and what the weighted collateral still secures |
| AaveV3.MaxAllowedIff | src/protocols/aave_v3/service.rs:375-436 | and it is let through if and only if moreover its value is at least one base unit |
| AaveV3.BorrowAmountIs | src/protocols/aave_v3/adapter.rs:852-867 | how the requested amount is read, and that exactly one of the two forms must be there |
| AaveV3.MinHealthIs | src/protocols/aave_v3/adapter.rs:759-761 | the minimum health factor is the requested one, and 1.05 by default |
| AaveV3.FloorShortfall | src/protocols/aave_v3/service.rs:312-334 | converting base to tokens and back never gains and loses at most one token unit's price, rounded up |
| AaveV3.RawAmountRoundTrip | src/protocols/aave_v3/adapter.rs:752-757 | the resolved amount written into the request is read back unchanged, and the requested minimum health factor stays |
| AaveV3.DefaultMinHealth | src/protocols/aave_v3/adapter.rs:759-761 | the default minimum health factor is 1.05 * 10^18 |
| Slippage.LimitIsExact | src/protocols/balancer_v3/service.rs:1178-1207 | the limit is the greatest integer at or below the rational bound (exact in) or the least at or above it (exact out) |
| Slippage.LimitDefinedIff | src/protocols/uniswap_v4/service.rs:676-702 | when a limit is derived at all, and that the two services differ only in the error for a zero quote |
| Slippage.DerivedLimitPasses | src/protocols/balancer_v3/service.rs:1166-1176 | a limit derived by either service passes the check that explicit limits go through, for the same quote |
| Slippage.ExplicitLimitIff | src/protocols/balancer_v3/service.rs:1166-1176 | an explicit limit is refused exactly when it is a least output above the quote or a most input below it |
| Slippage.LimitMonotoneInQuote | src/protocols/uniswap_v4/service.rs:676-702 | larger quotes have larger limits |
| Slippage.LimitPermissiveInSlippage | src/protocols/uniswap_v4/service.rs:676-702 | more slippage moves the limit in the permissive direction |
| Slippage.DownwardIsExactInLimit | src/protocols/balancer_v3/service.rs:1288-1303 | liquidity minimums are the exact-in limits of the quoted amounts and never above them; a deposit's minimum is refused exactly when it is zero or its product leaves a word |
| Selection.SelectBestBalancerPool | src/protocols/balancer_v3/service.rs:854-887 | nothing is chosen exactly when no candidate has a non-zero quote; otherwise some candidate with its quote, such that none quotes more (exact in) or less (exact out), and none with the same quote has a lower address; `quoted` counts the positions with a non-zero quote |
| Selection.BalancerOrderIndependent | src/protocols/balancer_v3/service.rs:841-901 | the loop's fold and its count are the same for every order of the candidates |
| Selection.SelectBestUniswapPool | src/protocols/uniswap_v4/service.rs:324-382 | the same for Uniswap: best by price, then by gas, then by pool id, among the candidates without hooks unless hooks are asked for |
| Selection.UniswapOrderIndependent | src/protocols/uniswap_v4/service.rs:384-403 | the loop's fold and its count do not depend on the order of discovery |
| CompoundV3.CapacityIs | src/protocols/compound_v3/service.rs:937-968 | the value is the exact floor of the rational capacity, and is returned if and only if the products stay within 512 bits and the floor within 256 |
| CompoundV3.CapacityIff | src/protocols/compound_v3/service.rs:945-967 | with a base price: a collateral has a value if and only if its balance, price or factor is zero, or the scales are positive, both products stay below 2^512 and the quotient below 2^256; it is 0 in the first case and that quotient in the second |
| CompoundV3.WidthsNeverPanic | src/protocols/compound_v3/adapter.rs:763-774 | with the field widths of the market's own data no product leaves 512 bits |
| CompoundV3.HandleBorrowCapacity | src/protocols/compound_v3/service.rs:540-594 | in the fields alone: the total is a value if and only if there is a base price and every collateral has a value, and it is the saturated sum of those values; what exceeds the current borrow is available; otherwise the loop stops at the first collateral without a value |
| CompoundV3.SumBelowExact | src/protocols/compound_v3/service.rs:540-594 | the unsaturated sum over n collaterals is at most the rational sum and less than n units below it |
| Allowances.RunClean | src/protocols/balancer_v3/adapter.rs:396-487 | running a clean batch from any allowances, whatever the protocol call uses up: intended allowances exactly at that call, no change from non-zero to non-zero, all of them zero at the end, everything else unchanged |
| Allowances.ApprovalBatchClean | src/protocols/morpho/adapter.rs:601-638 | reset, approve, call, reset is a clean batch |
| Morpho.ActionIsClean | src/protocols/morpho/adapter.rs:260-388 | every approving action compiles to a clean batch that opens what it deposits, or everything when a debt is repaid by shares; every other action is one protocol call without approvals |
| Morpho.ActionCallIs | src/protocols/morpho/adapter.rs:260-388 | which actions compile for which amounts, and which protocol call with which assets and shares each makes |
| Engine.BatchNativeValueRequired | src/api/services/mod.rs:90-112 | the checked running sum succeeds exactly when every value parses and the whole sum is a word |
| Engine.NativeValueIs | src/api/services/mod.rs:105-112 | a value is the number its trimmed digits denote, blank denoting zero, and anything else is refused |
| Engine.BatchSizeIs | src/execution_engine/mod.rs:88-103 | a batch has between 1 and 16 calls |
| BalancerV3.SwapIsClean | src/protocols/balancer_v3/adapter.rs:396-487 | a compiled swap opens exactly what it can spend, at the token and at Permit2, for the router call only |
| BalancerV3.SwapCompilesIff | src/protocols/balancer_v3/adapter.rs:288-330 | when a swap compiles, in the fields of the request |
| BalancerV3.SwapCallIs | src/protocols/balancer_v3/adapter.rs:429-436 | the router call has exactly the request's pool, tokens and deadline, its amount as the exact side, and its limit as the least output or the most input |
| BalancerV3.RemoveIsClean | src/protocols/balancer_v3/adapter.rs:576-628 | a compiled withdrawal opens the pool-token allowance for the amount burnt, and closes it |
| BalancerV3.RemovalCompilesIff | src/protocols/balancer_v3/adapter.rs:576-628 | when a withdrawal compiles, and that the router call burns exactly the requested pool tokens for at least the given amounts |
| BalancerV3.ValidateTokenAmounts | src/protocols/balancer_v3/adapter.rs:1022-1042 | accepts exactly the lists of distinct non-zero tokens with positive amounts |
| BalancerV3.ValidAmountsIs | src/protocols/balancer_v3/adapter.rs:1022-1042 | which lists that is, in terms of digits and numbers |
| BalancerV3.AddIsValidIff | src/protocols/balancer_v3/adapter.rs:345-364 | when a deposit request is valid, in its fields |
| BalancerV3.OrderTokenAmounts | src/protocols/balancer_v3/service.rs:1257-1275 | the loop over slots computes `PlaceAll`, first error included |
| BalancerV3.OrderingDefinedIff | src/protocols/balancer_v3/service.rs:1257-1275 | ordering succeeds exactly when every token is registered and every amount is a plain digit string |
| BalancerV3.SlotIsLast | src/protocols/balancer_v3/service.rs:1257-1275 | for any request, a slot holds the amount of the last entry whose token it is the first slot of |
| BalancerV3.SlotIsEmpty | src/protocols/balancer_v3/service.rs:1257-1275 | and zero if there is none |
| BalancerV3.OrderingConserves | src/protocols/balancer_v3/service.rs:1257-1275 | for a validated request every amount is in its token's first slot, the sum is kept, and there are as many non-zero slots as entries |
| BalancerV3.PaddedAmountRefused | src/protocols/balancer_v3/adapter.rs:1060-1070 | an amount with a leading space validates and is refused by the ordering |
| BalancerV3.CompileAddLiquidity | src/protocols/balancer_v3/adapter.rs:489-559 | when a deposit compiles, and to which calls in which order |
| BalancerV3.DepositIsClean | src/protocols/balancer_v3/adapter.rs:489-559 | k non-zero amounts make a clean batch of 5 k + 1 calls; the engine's cap accepts it if and only if k is at most 3 |
| BalancerV3.DepositPath | src/protocols/balancer_v3/adapter.rs:345-364 | a validated and ordered deposit always compiles, to its add-liquidity call between 5 k approvals, always fits the cap of 16, and opens each entry's own amount at its token and at Permit2 and nothing else |
| Discovery.DecodeRegisteredPool | src/protocols/balancer_v3/service.rs:780-839 | for any byte string the loop stays within bounds and computes `Decode` |
| Discovery.DecodesIff | src/protocols/balancer_v3/service.rs:780-839 | which logs decode, for any byte string, and which bytes become the address and the tokens |
| Bytes.BigEndianWeighs | src/protocols/balancer_v3/service.rs:797-811 | words are read most significant byte first |
| Discovery.DecodeReadsEncoding | src/protocols/balancer_v3/service.rs:800-825 | on the ABI encoding of any list of token configs the decoder returns their tokens in order, or says there are more than 64 |
| Discovery.InsertPage | src/protocols/balancer_v3/service.rs:756-764 | a page in any order is inserted whole, later logs winning, or not at all; the highest block is the greatest of the start block and the logs' |
| Discovery.FetchRegisteredPools | src/protocols/balancer_v3/service.rs:712-778 | the paging loop computes `Discover`; against any index that answers it, a result is complete as of the last request sent, or that request's answer was unsuccessful and empty |
| Discovery.DiscoveryIsLawful | src/protocols/balancer_v3/service.rs:712-778 | if paging ends without an error, the result is exactly what all logs register when the last request sent is answered, that answer being a page that is not full, although pages overlap and the logs grow meanwhile; unless that answer is unsuccessful and empty, and then it is exactly what the logs seen before it register; paging stalls only if the block it asks from fills a page by itself |
| Discovery.DiscoverySucceedsIff | src/protocols/balancer_v3/service.rs:712-778 | discovery succeeds if and only if, within 100 requests, one is sent whose answer is successful with less than 1000 logs, or unsuccessful and empty after the first, and all logs answered up to there decode |
| Discovery.OneShortPage | src/protocols/balancer_v3/service.rs:761-763 | one successful answer with less than 1000 logs that decode gives exactly their pools |
| Discovery.SuccessfulAnswersComplete | src/protocols/balancer_v3/service.rs:712-778 | if every request sent is answered successfully, a result is complete |
| Discovery.DiscoveryLosesPool | src/protocols/balancer_v3/service.rs:741-744 | an index and answers, the second one unsuccessful and empty, for which the result lacks a registered pool |
| Discovery.CutShortMisses | src/protocols/balancer_v3/service.rs:741-744 | a result cut short that way lacks exactly the pools that only unseen logs register |
| Discovery.CollectIs | src/protocols/balancer_v3/service.rs:756-764 | every registered pool is in the result once, with the record of its latest log |
| Discovery.CollectOnlyLogs | src/protocols/balancer_v3/service.rs:756-764 | nothing else is in the result |
| AgentWallet.NamespacedInjective | src/agent_wallet/mod.rs:164 | distinct (key, agent) pairs never share a row id, whatever the agent id contains |
| AgentWallet.WalletTable.InsertOnConflictDoNothing | src/agent_wallet/mod.rs:236-255 | an existing row wins |
| AgentWallet.WalletTable.GetOrCreate | src/agent_wallet/mod.rs:163-279 | with any inserts of other callers in between: a success returns the stored row of the pair, which holds the material this call generated unless another caller was first; no stored row changes; and which statements must succeed for a success |
| AgentWallet.RunKeeps | src/agent_wallet/mod.rs:214-279 | in every interleaving rows are only added, finished callers keep the stored row, and the fallback after the reload is never taken |
| AgentWallet.CallersConverge | src/agent_wallet/mod.rs:256-262 | callers finished at any two times hold the same wallet if and only if they asked for the same pair, and the table keeps it |
| AgentWallet.FirstCallIsRun | src/agent_wallet/mod.rs:163-279 | an undisturbed first call is a run that stores and returns a row with its own pair and the material it generated |
| AgentWallet.CallsAreShort | src/agent_wallet/mod.rs:163-279 | no schedule makes any one caller execute more than four statements |
| AgentWallet.StuckMeansServed | src/agent_wallet/mod.rs:163-279 | without faults a run that cannot go on has given every caller its wallet |

## Left out

- HTTP routes, middleware, CORS, the CLI, the MCP server and the mapping of errors to status codes: plumbing.
- RPC, bundler, paymaster, price oracle and quote calls: their answers are parameters of the model.
- Postgres and Redis as programs: each statement or command is one atomic step, and one that reports an error
  may or may not have been carried out.
- Cryptography and function selectors: calls are identified by constructor, and key material is a value.
- JSON: a job's payload is taken to be a function of the job, so LREM by payload removes an equal job.
  Payloads that do not parse are in `Queue.RedisQueue.DequeueJob` and not in the machine, where every payload
  was written by the API or by a worker.
- Webhooks, the `transactions` table and the `error_message` and `gas_estimate` columns: no other part reads
  them back.
- `src/relayer/erc4337.rs`, `src/relayer/paymaster.rs` and the calldata of Uniswap, GMX, Aave and Compound
  calls are not part of this model: straight-line assembly.
- Validation of chain names, agent ids and address strings, and hexadecimal decoding: one-branch checks;
  addresses are numbers, and log data arrives as bytes.
- The read-only balance and position handlers and their floating-point formatting: no decision depends on them.
- Identities of some errors: where callers only forward the message, the model keeps that there is one.
- RateLimit.RewindBound: over real numbers, so rounding of `f64` is not modelled.
- Lifecycle.DocumentedOrderIff: for runs in which nothing fails that has to do with the request; a failed
  status write of its own is logged and ignored by the code, so no order can be promised then.
- Finality.TerminalIsFinal: for the same runs; when anything may fail, `Continuations.RowIsFixedIff` is exact.
- Queue.RedisQueue.RecoverAtStartup: as in the code, lists of workers beyond the configured number are left
  as they are.
- Discovery.FetchRegisteredPools: the log index is taken to return the first 1000 logs at or above a block in
  ascending order in every successful answer, and to change only by growing; block numbers arrive parsed.
- Selection.UniswapOrderIndependent: for candidates whose pool ids, which are hashes, differ when their keys do.
- CompoundV3.SumBelowExact: about the unsaturated sum; the saturated one is that or 2^256 - 1.
- AgentWallet.WalletTable.GetOrCreate: a stored address that does not parse counts as a failed load or reload.
