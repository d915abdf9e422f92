# treasuryforge: a verified model

This project models the parts of treasuryforge whose correctness a reader cannot see from one
function: the hand-written linear algebra behind its statistics, the order manager that must
never duplicate an order, the guarded trading loop, the FIFO tax ledger, the pairs of
implementations that have to agree, and a few smaller algorithms with a real theorem in them.
Each is proved in Dafny for every input, every run or every reachable state.

`dafny verify dfyconfig.toml` checks everything. Numbers are mathematical reals and integers;
the code's own tolerances (1e-9, 1e-10, 1e-12) are constants in the model, and several theorems
are bounds in them.

## How it is organised

| file | models | main results |
|---|---|---|
| `Wrappers`, `Sums`, `MatrixAlgebra` | options and results, finite sums, matrices, row operations | row operations are undone by column operations |
| `Elimination`, `LinAlg`, `LeastSquares` | `signals/linalg.py`, clients in `signals/cointegration.py` | a two-sided inverse exactly when plain elimination has its pivots, and otherwise a nonzero vector the matrix all but kills; least squares is optimal; every refusal exactly |
| `OrderProtocol`, `OrderSafety`, `OrderDurability`, `OrderLedger`, `OrderHypotheses` | `orders.py` and `journal.py` as a transition system with crashes | at most one execution per id, with requests that arrive late; settled orders are never posted again; which ledger events the checkpoint reflects; each assumption on the exchange is needed |
| `Orders`, `Service` | the manager, journal, exchange and service as objects | every call is a run of the protocol, so its theorems hold at every crash point; what the exchange replied decides the answer |
| `TaxLedger`, `TaxTheorems`, `TaxHistory` | `risk/tax.py` | conservation, exact matching, strict FIFO, bounded dust; fees and profit over histories |
| `Momentum`, `MomentumRules` | streaming and batch scalp rules | they complete the same trades, and these are the ones the rules call for, none left out |
| `FundingEpisodes`, `Funding` | four implementations of the funding episode rule | they agree on every series |
| `Shadow`, `ShadowAccounts` | shadow and basis books, `pnl_decomposition.py` | restarts change nothing; the ledger reconciles; what a position makes, from the observations |
| `Drift` | Page-Hinkley and the kill-switch | the one-pass value is the largest suffix sum; which reason is given, on the readings |
| `Trading`, `Policy` | values, wallet, executor, policy engine | solvency; the rule that denies is the first one broken; indistinguishable engines stay so |
| `Runner`, `RunnerWindows`, `RunnerSafety`, `RunnerAccounts` | `runner.py` | window limits, latched breaker, anchored floor, balances and equity over whole runs; the report adds up, and what is allowed fills |
| `RunnerCrashes`, `CrashWindows`, `CrashRulings`, `RunnerLosses` | `runner.py` and `journal.py` over crashes and restarts | what the guards still promise when the process dies between any two durable writes, exactly when they fail, and a run for each way |
| `OrderBook`, `Audit`, `MrScalp`, `Allocator` | book walk, hash chain, mean-reversion backtest, allocator | optimality; accepted means prefix; trades by the rules and no chance let go; caps |

Code that updates objects or runs loops is modelled by classes and methods whose contracts tie
the new state to a specification function; the theorems are about those functions. For each main
operation some of them say what it does in the terms of its inputs and parameters alone, with the
code's constants written out, so that a change made to a function and to the method it specifies
contradicts one of them.

## What the proofs assume, and what they found

**Orders.** A POST that times out may have landed, be lost, or still be on its way: then it
reaches the exchange later, at any time, or never. Six facts about the surroundings are named
hypotheses of the protocol, and `EachHypothesisIsNeeded` gives, for each, a run that keeps the
other five and breaks the guarantee:

- a lookup that answers "no fill" is right (`exchanges/bitso/executor.py:123-127` also answers
  that when the lookup failed, and `orders.py:208-213` cannot tell);
- a request that meets an active order of its id creates no second one;
- a definite rejection means that nothing landed, and nothing is active or under way;
- no order that traded leaves the book while its record is PLACING or about to be posted after a
  lookup that found nothing;
- no order that traded leaves the book while another request of its id is still under way;
- `recover()` runs before any `submit()` after a restart.

The fifth is about the exchange alone, because the code has no way to see it: the transport gives
up after 15 seconds (`exchanges/bitso/transport.py:57`), and nothing in `orders.py` waits for, or
withdraws, the request it gave up on. That every lookup happens after all requests have arrived
would not be enough in its place: `PromptLookupsAreNotEnough` is a run with such lookups in which
the retry itself comes too late. The transitions are those of the code, not of its docstring:
UNKNOWN also goes to SUBMITTED or REJECTED by a retry, and a record still in PLACING is posted
without a lookup (`orders.py:170`).

The write-ahead ledger is *not* always at most one event ahead of the checkpoint. A crash between
an append and its checkpoint tears the event: no later checkpoint ever reflects it
(`TornForGood`). In every reachable state the ledger without those events replays to the
checkpoint (`LedgerReplays`), and their number is that of such crashes over the whole run, plus
one while a save is under way; so it is at most one exactly when there was no such crash, or one
and no save is under way (`LedgerLead`). `TwoEventsLost` is a run with honest surroundings and a
later checkpoint whose ledger begins with two orders that nothing else knows.

An exception out of `recover()` leaves `Service.run` without firing the fail-safe, because the
call stands before the `try` (`service.py:62-64`); the module's fourth promise covers only the
loop. That happens exactly when one of its lookups raises, and `FailedRecoveryIsSilent` is such a
restart. Only `BitsoError` is caught around a POST (`orders.py:195`); anything else ends the
process through `Service.run`, with the record as it was on disk.

**Inverse.** The right inverse holds for every square matrix that passes the pivot test, symmetric
or not. The test is passed exactly when plain Gaussian elimination finds every pivot at least 1e-12
in size (`HasPivots`, defined without the right half and without Gauss-Jordan). So the hedge ratio
of n > 2 values of b is refused exactly when n times the sum of their squares and the square of
their sum differ by less than 1e-12 of the larger of n and the size of that sum
(`HasPivotsIff`); nothing scales that threshold to the data. The variance clamp in `ols` never changes a value (`GramInverseDiagonal`).

**Momentum.** The batch closes a position still open at the end of the series and never enters on
the last bar; the stream leaves it open and may enter on the last bar. That is the only
difference.

**Runner.** Final equity is marked at the last *logged* price. A tick that only approves an intent
logs nothing, so a run that ends on one is marked at the tick before, and a run of that single
tick counts its positions as nothing (`UnpricedPositionReadsAsLoss`). The window, balance and
equity theorems that need it assume positive amounts and prices, prices on the rounding grid and
monotone rounding; the policy itself does not check signs.

**Crashes.** A fill is first a ledger line and then a checkpoint (`runner.py:147-152`), and a trip
is only a checkpoint (`runner.py:120-121`), so three promises of `journal.py:3-7` have exceptions.
Each has a run in which it fails and its exact condition:

- a crash inside the tick that trips the breaker loses the trip, and the next tick may buy
  (`TripLost`), exactly when the last write of that tick was not made;
- a crash moves the anchor of the drawdown floor (`AnchorMoves`) exactly when nothing has filled
  and been checkpointed, the breaker has not tripped, and the tick it fell in had written no
  checkpoint yet;
- a crash between the two writes of a fill *tears* it: the ledger has it, the restored wallet and
  windows do not. One fill in ten ticks is allowed and two happen (`RateLimitExceeded`). In every
  window the fills of the ledger are at most the limit and the torn ones in it. The restored
  windows look like those of an engine that knows the whole ledger exactly when no torn fill is
  left in either (`LooksFullIff`), and then it rules as that one for ever; without a spend budget
  it does so exactly when no intent gets as far as the windows, or every torn fill still in the
  window has the limit's worth of kept ones at its time or later (`RulesFullIff`).

What is said of the trip and the anchor holds whatever the ticks' clock does. The theorems about
windows assume that ticks come in time order, and over a whole life also across its restarts.
The repository's own `MarketSimulator.ticks` does not do that: it counts from 0 on every call
(`market.py:36-42`). `ClockRestarts` is a life on such a clock in which no fill is torn and a
window of a limit of two has three.

**Wallet.** A snapshot restores the wallet exactly when no symbol is called "quote"; one that is
takes the place of the quote balance.

**Order book.** A nonempty fill on an uncrossed book is adverse before the clamp at zero, so the
clamp matters only for an empty buy; an empty sell reports a slippage of 100 percent. A size of
at most 1e-12 stops at the first level, whatever depth follows it (`EmptyWalkIff`,
`FillSlippage`).

**Audit.** A log reopened on a nonempty file with the default previous hash breaks its chain
(`ReopenedChain`, exact condition). The keyed hash is an abstract injective function that never
returns the genesis value; `IdealHashesExist` shows that this is consistent.

**Allocator.** A comment says that the tighter of the two position caps applies; the code lets the
candidate's own cap replace the global one, looser or not. An own cap of 0.5 under a global cap of
0.25 is given 0.40 (`LooserOwnCapWins`). With own caps up to m the comment holds for every list of
candidates exactly when the least of m, the total cap and the cluster cap is within the global
position cap (`TighterCapIff`). Another comment says that
the weights cannot exceed the total cap "by construction". With distinct names they cannot; but
weights are kept by name, so candidates that share one are each given the weight of the last
(`SharedNamesOverspend`: 1.5 under a total cap of 1).

## Model

| member | source | states |
|---|---|---|
| LinAlg.MatMul | treasuryforge/signals/linalg.py:14-27 | skipping zero factors still computes the matrix product |
| LinAlg.ArgMaxPivot | treasuryforge/signals/linalg.py:39-40 | the pivot row is the first of largest size at or below the diagonal |
| LinAlg.SwapPivot | treasuryforge/signals/linalg.py:43 | two rows exchanged, which keeps the elimination invariant |
| LinAlg.ScalePivot | treasuryforge/signals/linalg.py:44-45 | one row divided by its pivot, which keeps it too |
| LinAlg.ClearColumn | treasuryforge/signals/linalg.py:46-49 | a multiple of the pivot row taken off every other row, which keeps it and makes one more unit column |
| LinAlg.BlockStep | treasuryforge/signals/linalg.py:38-49 | on the rows and columns still to do, swap, divide and clear are one step of plain elimination |
| Elimination.PivotsExt | treasuryforge/signals/linalg.py:40-42 | the pivots depend on the entries of the square alone |
| LinAlg.Inverse | treasuryforge/signals/linalg.py:34-50 | there is an answer exactly when plain elimination finds every pivot at least 1e-12, and it is a left and a right inverse; a refusal comes with a vector of unit entry that the matrix sends below the tolerance in every row |
| LinAlg.StuckMeansNearlySingular | treasuryforge/signals/linalg.py:41-42 | when no pivot is left the undone row operations only permute, so the input itself nearly kills that vector |
| LinAlg.InvertibleHasNoKernel | treasuryforge/signals/linalg.py:41-42 | a truly singular matrix never gets an answer |
| LinAlg.InverseIsUnique | treasuryforge/signals/linalg.py:34-50 | any correct method returns the same matrix |
| LeastSquares.NormalEquations | treasuryforge/signals/linalg.py:64-86 | the coefficients leave a residual orthogonal to every regressor |
| LeastSquares.RssSplits | treasuryforge/signals/linalg.py:64-86 | moving to other coefficients costs exactly the squared length of the change in fit |
| LeastSquares.LeastSquaresIsOptimal | treasuryforge/signals/linalg.py:64-86 | no other coefficients have a smaller residual sum of squares, and only these reach it |
| LeastSquares.FullRankHasNoKernel | treasuryforge/signals/linalg.py:64-86 | exactly collinear regressors are always refused: they leave no inverse to find |
| LeastSquares.GramInverseDiagonal | treasuryforge/signals/linalg.py:83-85 | the variances are never negative, so the clamp is idle |
| LeastSquares.Ols | treasuryforge/signals/linalg.py:64-86 | a fit is optimal, its residuals orthogonal, its variances right; and each of the three refusals exactly: too few rows; a pivot of X'X below 1e-12, which also means that X'X is within the tolerance of killing a vector; no rows, no columns or too short a y |
| LeastSquares.HedgeRatio | treasuryforge/signals/cointegration.py:38-42 | the two numbers are the optimal intercept and slope; which refusal, exactly, on the numbers alone |
| LeastSquares.HasPivotsIff | treasuryforge/signals/cointegration.py:38-42 | the 2 x 2 normal equations have their pivots exactly when n times the sum of squares and the square of the sum differ by 1e-12 of the larger of n and the size of the sum |
| LeastSquares.EngleGrangerSpread | treasuryforge/signals/cointegration.py:87-90 | the spread sums to zero and is uncorrelated with the second leg; there is one exactly when there are more than two values and the second leg varies enough |
| OrderSafety.ReachableShape | treasuryforge/orders.py:126-225 | the checkpoint differs from memory only in the record in flight, in every reachable state |
| OrderSafety.AtMostOnce | treasuryforge/orders.py:5-23 | over every run with timeouts, requests that arrive late, lost replies, crashes and restarts at most one order of an id ever executes, and FILLED is true |
| OrderSafety.RejectedNeverExecuted | treasuryforge/orders.py:195-198 | nothing of a rejected id ever executed, is open or is still under way |
| OrderDurability.PostFollowsCheckpoint | treasuryforge/orders.py:144-149 | every POST comes after a checkpoint that holds its id, not yet settled |
| OrderDurability.SettledNeverReposted | treasuryforge/orders.py:165-189 | once a checkpoint shows submitted, open, filled or rejected, nothing later posts the id |
| OrderDurability.AcknowledgedNeverReposted | treasuryforge/orders.py:184-203 | in any run, between a POST that the exchange acknowledged and the next POST of the same id lies a crash |
| OrderDurability.TerminalReplays | treasuryforge/orders.py:166-167 | a durable fill or rejection is replayed unchanged for ever |
| OrderDurability.PostsAreBounded | treasuryforge/orders.py:179-189 | POSTs of an id are at most max_attempts plus the number of crashes |
| OrderDurability.RecoverNeverPosts | treasuryforge/orders.py:151-162 | without a submit nothing is posted, through any recoveries and restarts |
| OrderLedger.LedgerReplays | treasuryforge/orders.py:132-136 | in every reachable state the ledger without the events that no checkpoint reflected replays to the checkpoint, and while a save is under way with its event to memory |
| OrderLedger.LedgerLead | treasuryforge/orders.py:132-136 | the events no checkpoint reflects are as many as the crashes between an append and its checkpoint over the whole run, and the one being saved; exactly when they are at most one |
| OrderLedger.TornForGood | treasuryforge/orders.py:132-136 | an event torn by a crash is reflected by no later checkpoint |
| OrderLedger.TwoEventsLost | treasuryforge/orders.py:132-136 | an honest run, with a checkpoint after the crashes, whose ledger begins with two orders known to neither checkpoint nor memory |
| OrderHypotheses.WithoutLookups | treasuryforge/exchanges/bitso/executor.py:123-127 | a wrong "no fill" leads to a second execution although all else is honest |
| OrderHypotheses.WithoutQuiet | treasuryforge/orders.py:20-23 | so does an order completing between the lookup and the next POST |
| OrderHypotheses.WithoutArrivals | treasuryforge/exchanges/bitso/transport.py:57 | so does a timed-out request that reaches the exchange after its retry has been filled |
| OrderHypotheses.PromptLookupsAreNotEnough | treasuryforge/orders.py:176-189 | even if every lookup that finds nothing comes when no request of its id is under way, a retry that times out can execute a second order |
| OrderHypotheses.WithoutDeduplication | treasuryforge/orders.py:16-18 | so does an exchange that does not deduplicate active orders |
| OrderHypotheses.WithoutRecovery | treasuryforge/service.py:61-62 | so does a submit before recovery, of a record left in PLACING |
| OrderHypotheses.WithoutRejections | treasuryforge/orders.py:71-72 | a rejection that landed after all makes a REJECTED record false |
| OrderHypotheses.EachHypothesisIsNeeded | treasuryforge/orders.py:5-23 | dropping any one assumption breaks the guarantee |
| Orders.Journal.AppendEvent | treasuryforge/journal.py:34-39 | one event at the end of the ledger |
| Orders.Journal.Checkpoint | treasuryforge/journal.py:41-53 | the checkpoint is replaced as a whole |
| Orders.OrderManager.constructor | treasuryforge/orders.py:126-129 | memory is the checkpoint: a first start takes no step, a later one is a crash step of the run so far |
| Orders.OrderManager.Persist | treasuryforge/orders.py:132-136 | the append and the checkpoint are two steps of the run, and the record is stored |
| Orders.OrderManager.TryFill | treasuryforge/orders.py:205-213 | a fill is recorded, no fill or a raised lookup changes nothing |
| Orders.OrderManager.PlaceOnce | treasuryforge/orders.py:191-203 | exactly one POST and one more attempt; acknowledged is recorded SUBMITTED with its order id, refused REJECTED, uncertain UNKNOWN, and an exception that is not caught writes nothing |
| Orders.OrderManager.Resolve | treasuryforge/orders.py:165-189 | the answer is the record, and there is none exactly when a call to the exchange raised; every POST but the last got an uncertain reply, and the last reply decides: acknowledged means OPEN or FILLED, refused REJECTED, uncertain FILLED, or UNKNOWN once the attempts are spent; settled orders are not posted |
| Orders.OrderManager.Submit | treasuryforge/orders.py:139-149 | idempotent, touches one record; the replies of this call decide its answer, one attempt a POST, each followed by one lookup unless refused; without a POST only what was acknowledged before is OPEN; a fill is that of the trade log, and the answer is the truth about the exchange; there is none exactly when a call raised |
| Orders.OrderManager.Recover | treasuryforge/orders.py:151-162 | posts nothing, looks up each order that is not final once, learns and returns its outcome: FILLED with its trade, OPEN if it was ever acknowledged, else as it was; it fails exactly when one of those lookups raised |
| Orders.OrderManager.RecoverOne | treasuryforge/orders.py:155-161 | one turn of the loop as one protocol step |
| Orders.TruthAtTheEnd | treasuryforge/orders.py:5-23 | what an honest run says about an id wherever it stands |
| Service.Service.Run | treasuryforge/service.py:55-76 | recovery before any step; which exit, exactly: not ready, a lookup of the recovery raised, a dead switch, a turn or a call to the exchange that raised, or the end of the feed; every order driven is resting, final or out of attempts; the fail-safe once on all but the last and a failed recovery |
| Service.FailedRecoveryIsSilent | treasuryforge/service.py:61-64 | a restart with an order in flight whose recovery raises: no step, and the fail-safe has not fired |
| TaxLedger.FifoTaxLedger.constructor | treasuryforge/risk/tax.py:76-80 | the ledger starts from the file |
| TaxLedger.FifoTaxLedger.AddFill | treasuryforge/risk/tax.py:82-108 | the books change as specified, and a refused fill changes nothing |
| TaxLedger.FifoTaxLedger.MatchSell | treasuryforge/risk/tax.py:110-165 | refused exactly when inventory is short; else lots left and matches as specified |
| TaxLedger.FifoTaxLedger.MatchLot | treasuryforge/risk/tax.py:130-159 | one lot's match and remainder, fees in proportion |
| TaxLedger.FifoTaxLedger.GetInventory | treasuryforge/risk/tax.py:167-169 | the coin's lots, oldest first |
| TaxLedger.FifoTaxLedger.GetUnrealizedCostBasis | treasuryforge/risk/tax.py:171-173 | the value of those lots at their own prices |
| TaxTheorems.SellConserves | treasuryforge/risk/tax.py:110-165 | whatever a unit is worth: held = left + matched + dust |
| TaxTheorems.BuyFeesConserved | treasuryforge/risk/tax.py:132-159 | buy fees are split between match and remainder without loss |
| TaxTheorems.MatchesAddUp | treasuryforge/risk/tax.py:120-160 | the matches add up to what has been served |
| TaxTheorems.SellFeesAddUp | treasuryforge/risk/tax.py:120-160 | and so do their shares of the sell fee |
| TaxTheorems.SellIsMatchedExactly | treasuryforge/risk/tax.py:110-165 | an accepted sell is matched in full, quantity and fee |
| TaxTheorems.PnlIsExact | treasuryforge/risk/tax.py:136-139 | realized profit is proceeds less cost less both fees |
| TaxTheorems.DustIsBounded | treasuryforge/risk/tax.py:156-164 | at most one lot leaves dust, at most 1e-10 of it |
| TaxTheorems.OtherCoinsUntouched | treasuryforge/risk/tax.py:119-164 | other coins keep their lots and order |
| TaxTheorems.SellIsFifo | treasuryforge/risk/tax.py:119-164 | a lot is touched only when every earlier one of the coin is used up |
| TaxTheorems.NoDustIsLeft | treasuryforge/risk/tax.py:156-164 | no lot of 1e-10 or less is left behind by a match |
| TaxTheorems.MatchesNameTheSell | treasuryforge/risk/tax.py:141-154 | every match bears the sell's time, price and id, and a lot's own time, price and id |
| TaxTheorems.FillIsBooked | treasuryforge/risk/tax.py:82-108 | which fill is refused and why, in the order of the checks; what a buy adds; when a sell is short |
| TaxTheorems.SideIff | treasuryforge/risk/tax.py:85 | buy and sell are read in either case, and nothing else is a side |
| TaxTheorems.CoinIsUpper | treasuryforge/risk/tax.py:93 | a coin is booked in upper case, letter by letter |
| TaxTheorems.HistoryConserves | treasuryforge/risk/tax.py:82-165 | over any history: bought = matched + held + dust, in any weighting |
| TaxTheorems.SoldAndDust | treasuryforge/risk/tax.py:82-165 | matched is sold, and dust is at most 1e-10 a sell |
| TaxTheorems.InventoryAccounted | treasuryforge/risk/tax.py:82-173 | inventory is bought less sold, within that dust |
| TaxHistory.FeesConserved | treasuryforge/risk/tax.py:132-159 | over any history: buy fees paid = charged to matches + still carried + dropped with dust; sell fees paid = charged to matches |
| TaxHistory.ProfitAccounted | treasuryforge/risk/tax.py:136-139 | over any history the realized profit is the proceeds less the cost and the fees that are gone, those still held, carried or dropped left out |
| Momentum.ScalpBook.ObserveBar | treasuryforge/scalp_shadow.py:27-54 | one bar of the streaming rule |
| Momentum.ScalpBook.Flatten | treasuryforge/scalp_shadow.py:56-57 | flat again |
| Momentum.SimulateExit | treasuryforge/signals/momentum.py:40-56 | the walk ends where the rule says, and its gross return is exit over entry less 1; with nothing to walk over it is 0 |
| Momentum.BacktestMomentum | treasuryforge/momentum_backtest.py:81-99 | one net and one holding time for each trade of the scan |
| Momentum.StreamAgreesWithBatch | treasuryforge/scalp_shadow.py:27-57 | bar by bar the book completes the batch's trades, but for a forced close at the end |
| Momentum.RunBook | treasuryforge/scalp_shadow.py:27-57 | the object, run over a series, agrees with the batch, wherever no close is 0 |
| Momentum.TradesDoNotOverlap | treasuryforge/momentum_backtest.py:81-99 | the trades of the scan, a forced close at the end included, are disjoint and hold 1 to max_hold bars |
| Momentum.ReturnsTelescope | treasuryforge/scalp_shadow.py:27-54 | cost-free bar returns of a held position compound to its exit |
| Momentum.TradeReturnsTelescope | treasuryforge/scalp_shadow.py:27-54 | from entry bar to exit bar they compound to exit over entry |
| MomentumRules.TradesAreByTheRule | treasuryforge/momentum_backtest.py:81-99 | on bars and parameters alone: each trade is entered on two rises in a row, open through every bar between, and left by the stop, the trail, the limit or the end of the data at that price; and every such rise falls into a trade |
| MomentumRules.BarRule | treasuryforge/scalp_shadow.py:27-54 | which action a bar gives, from levels and closes; its price, and the position after it |
| MomentumRules.BarReturns | treasuryforge/scalp_shadow.py:30-51 | what that bar returns |
| MomentumRules.CostIsHalved | treasuryforge/scalp_shadow.py:30-51 | half the cost is taken on entry and half on exit, nothing else changes with it |
| MomentumRules.NetIs | treasuryforge/momentum_backtest.py:90-97 | the net of a batch trade: exit price over entry close, less 1 and the whole cost |
| FundingEpisodes.EpisodesAreMaximal | treasuryforge/funding_persistence.py:60-73 | the reference episodes are maximal, disjoint and in order |
| FundingEpisodes.InsideIffHigh | treasuryforge/funding_persistence.py:60-73 | with exit at or below enter none is missed: an interval is in an episode exactly when funding stayed at exit or above since it last reached enter |
| FundingEpisodes.EntriesAreSeen | treasuryforge/carry_backtest.py:71-90 | whatever the rates, an interval at the enter rate lies in an episode or is the one that ends one |
| FundingEpisodes.DurationsAre | treasuryforge/funding_persistence.py:60-73 | a duration is the number of intervals of its episode |
| FundingEpisodes.HoldsAreGatedDurations | treasuryforge/carry_backtest.py:71-90 | holds are d-k+1 over the durations d of at least k |
| Funding.FundingPersistence | treasuryforge/funding_persistence.py:52-73 | the durations of the episodes; the last is censored exactly when the last interval lies in one |
| Funding.BacktestCarry | treasuryforge/carry_backtest.py:49-90 | holds, nets and totals are those of the gated episodes |
| Funding.CarryPositions | treasuryforge/carry_backtest.py:58-90 | on the series alone: one position for each episode that lasts for min_age intervals, in order, from that interval to the end of the episode, worth the funding held less a round trip |
| Funding.FundingCarrySignal.AdvanceAge | treasuryforge/signals/funding.py:90-97 | the age of the current episode |
| Funding.FundingCarrySignal.Decide | treasuryforge/signals/funding.py:99-109 | the action and the new state |
| Funding.DecideStep | treasuryforge/signals/funding.py:90-109 | ENTER on the k-th interval of an episode, EXIT when it ends |
| Funding.SignalRuns | treasuryforge/signals/funding.py:71-109 | ENTER-to-EXIT runs are the gated durations |
| Funding.BacktestFundingCarry | treasuryforge/backtest/funding_backtest.py:44-78 | each interval returns its funding inside an episode, less a cost where one begins or has just ended; the intervals held are those inside, the trades the beginnings; the total and the equity curve follow |
| Funding.CompoundCurve | treasuryforge/backtest/funding_backtest.py:66-70 | each point of the curve is the one before it, grown by the return of its interval |
| Funding.FundingFormsAgree | treasuryforge/funding_persistence.py:52-73 | the four implementations agree on every series |
| Funding.DurationsSum | treasuryforge/backtest/funding_backtest.py:53-64 | total length is the sum of the durations |
| Shadow.ShadowBook.constructor | treasuryforge/shadow.py:68-78 | a book starts as its ledger replays |
| Shadow.ShadowBook.Observe | treasuryforge/shadow.py:80-90 | one observation, its action and its ledger line |
| Shadow.ShadowBook.Apply | treasuryforge/shadow.py:109-125 | the figures after an action |
| Shadow.ReplayIsFaithful | treasuryforge/shadow.py:68-125 | replaying a line does what writing it did, vetoed entries included |
| Shadow.RestartsDoNotMatter | treasuryforge/shadow.py:68-125 | any restarts between observations leave the book as if there had been none |
| Shadow.BasisSignal.Decide | treasuryforge/signals/basis.py:63-72 | the basis rule |
| Shadow.BasisBook.constructor | treasuryforge/shadow_basis.py:68-75 | a basis book starts as its ledger replays |
| Shadow.BasisBook.Observe | treasuryforge/shadow_basis.py:77-101 | one observation, its action and its ledger line |
| Shadow.BasisBook.Record | treasuryforge/shadow_basis.py:111-124 | the figures after an action |
| Shadow.BasisBook.ApplyStored | treasuryforge/shadow_basis.py:126-131 | a stored line, convergence from the previous premium |
| Shadow.BasisReplayIsFaithful | treasuryforge/shadow_basis.py:68-131 | replaying a basis line does what writing it did |
| Shadow.BasisRestartsDoNotMatter | treasuryforge/shadow_basis.py:68-131 | any restarts leave the basis book unchanged |
| Shadow.Decompose | treasuryforge/pnl_decomposition.py:66-87 | the breakdown of a ledger |
| Shadow.ShadowLedgerReconciles | treasuryforge/pnl_decomposition.py:25-46 | the breakdown gives the book's funding, convergence and negated costs, net is the sum of returns, equity their compound |
| Shadow.BasisLedgerReconciles | treasuryforge/pnl_decomposition.py:25-46 | the same for the basis book |
| ShadowAccounts.ShadowRule | treasuryforge/shadow.py:80-90 | when the shadow book enters, holds, leaves and stays out, an entry that is refused included |
| ShadowAccounts.BasisRule | treasuryforge/shadow_basis.py:77-101 | the same for the basis book, from its two thresholds |
| ShadowAccounts.RoundTripCosts | treasuryforge/signals/funding.py:51-62 | entering and leaving cost the same, together every leg at the fee |
| ShadowAccounts.ShadowBookAccounts | treasuryforge/shadow.py:80-125 | over any history, restarts included: each return is what its observation pays, funding is that of the observations held through, and the counts are of what was done |
| ShadowAccounts.ConvergenceIsPremiumLost | treasuryforge/shadow_basis.py:89-92 | over any history, restarts and vetoes included, realized convergence is the sum over all positions of the premium at entry less the last one held to |
| ShadowAccounts.PositionMakes | treasuryforge/shadow_basis.py:77-124 | a position entered at one premium and held to another makes the funding of its observations and the first premium less the second |
| ShadowAccounts.BasisPays | treasuryforge/shadow_basis.py:77-101 | what each observation returns: half a round trip negated, funding and the fall of the premium, or nothing |
| Drift.PageHinkley.Update | treasuryforge/risk/drift.py:34-47 | one update of the detector |
| Drift.PageHinkley.Reset | treasuryforge/risk/drift.py:49-52 | after a reset the detector is a fresh one |
| Drift.MeanIsAverage | treasuryforge/risk/drift.py:34-47 | the running mean is the average of the inputs |
| Drift.ValueIsLargestSuffix | treasuryforge/risk/drift.py:34-47 | the value is the largest sum of deviations over a suffix, the empty one included |
| Drift.AlarmIffExceeded | treasuryforge/risk/drift.py:34-47 | the alarm holds exactly when some prefix exceeded the threshold |
| Drift.Mirrored | treasuryforge/risk/drift.py:34-47 | a rise detector on x is a drop detector on -x |
| Drift.DriftKillSwitch.Observe | treasuryforge/risk/drift.py:63-79 | the reason reported is the first kill of the whole history; each detector takes its reading, on the one that kills too, and none after that |
| Drift.DriftKillSwitch.Kill | treasuryforge/risk/drift.py:81-84 | a later reason never replaces the first |
| Drift.KillIsFinal | treasuryforge/risk/drift.py:55-84 | once killed, no later reading changes the reason |
| Drift.KilledIff | treasuryforge/risk/drift.py:63-79 | on the readings alone: the reason is that of the first reading with a drawdown beyond the band or a suffix of returns or slippages that deviates by more than lambda, drawdown before returns before slippage; there is none exactly when no reading is such |
| Trading.SimWallet.Equity | treasuryforge/wallet.py:28-33 | quote plus every position at its price, for any table of prices; unpriced ones count nothing |
| Trading.SimWallet.ApplyFill | treasuryforge/wallet.py:35-51 | balances move by the deltas, a real overdraft changes nothing |
| Trading.WalletRoundTrip | treasuryforge/wallet.py:53-59 | a snapshot restores the wallet exactly when no symbol is "quote", and what it restores when one is |
| Trading.FillKeepsSolvency | treasuryforge/wallet.py:41-51 | no balance goes negative; each moves by its delta plus a clamp of at most 1e-9 |
| Trading.FillMoves | treasuryforge/types.py:83-104 | what a fill adds to and takes from both balances, by side and by the currency of its fee |
| Trading.RefusedIff | treasuryforge/wallet.py:35-51 | refused exactly when a balance would end below -1e-9; else the balances after it, clamped at zero |
| Trading.FillIs | treasuryforge/executor.py:29-49 | the fill of an intent: its amount at the slipped price, its fee, its time |
| Trading.Execute | treasuryforge/executor.py:29-49 | the fill specified, applied, or nothing |
| Trading.FillIsAdverse | treasuryforge/executor.py:29-49 | buys fill at or above the tick, sells at or below, fees are not negative |
| Trading.FillLowersEquity | treasuryforge/executor.py:29-49 | a fill never raises equity at its own tick beyond the clamps |
| Trading.FillCost | treasuryforge/executor.py:29-49 | unrounded, a fill costs the slippage in basis points and the fee rate, exactly |
| Policy.PolicyEngine.Evaluate | treasuryforge/policy.py:69-155 | the ruling and the latched state after it, of which the lemmas below say what they are |
| Policy.PolicyEngine.CheckFunds | treasuryforge/policy.py:141-155 | the solvency rule |
| Policy.PolicyEngine.PruneRecent | treasuryforge/policy.py:183-191 | what is left of the fill times |
| Policy.PolicyEngine.PruneSpend | treasuryforge/policy.py:183-191 | what is left of the spend entries |
| Policy.PolicyEngine.RegisterFill | treasuryforge/policy.py:157-164 | a fill enters both windows |
| Policy.PolicyEngine.Saved | treasuryforge/policy.py:167-175 | the snapshot is the whole latched state |
| Policy.PolicyEngine.Restore | treasuryforge/policy.py:177-181 | the engine is the stored one, with the code's default for each key that is missing |
| Policy.RestoreIsExact | treasuryforge/policy.py:167-181 | a snapshot restores the engine it was taken of, and another one does exactly when it lacks only what was at its default |
| Policy.AllowedIff | treasuryforge/policy.py:69-155 | in plain arithmetic: an intent is allowed exactly when every rule is met, whatever order they are tried in; when the breaker rules and latches; what the anchor is |
| Policy.FirstBrokenRule | treasuryforge/policy.py:83-155 | a denial names the first of the ten rules, in order, that is broken |
| Policy.BreakerIff | treasuryforge/policy.py:88-94 | against a positive anchor the breaker denies and latches exactly when the part of it lost exceeds max_drawdown_pct |
| Policy.WindowsAfter | treasuryforge/policy.py:122-139 | what a ruling leaves in both windows: everything, or all but the oldest entries that are too old |
| Policy.TrippedForGood | treasuryforge/policy.py:86-94 | after a trip no sequence of calls gets an ALLOW |
| Policy.AnchorIsFixed | treasuryforge/policy.py:79-80 | the drawdown anchor never moves |
| Policy.PruningIsInvisible | treasuryforge/policy.py:122-139 | what pruning drops can never matter again |
| Policy.AlikeRules | treasuryforge/policy.py:69-155 | engines whose windows look alike from now on rule alike and stay alike |
| Policy.AlikeForever | treasuryforge/policy.py:167-181 | no later sequence of calls can tell such engines apart |
| Runner.Runner.Run | treasuryforge/runner.py:86-131 | from any journal, and again on the same runner, the run and its report, denials counted by reason, are those of the step function, of which `RunnerAccounts` says what they add up to |
| Runner.Runner.Turn | treasuryforge/runner.py:90-127 | one turn of the loop is one step: what was pending settles at this tick's price, then the agent's intent is ruled on |
| Runner.Runner.Refuse | treasuryforge/runner.py:115-118 | a denial is counted under its reason and logged |
| Runner.Runner.Settle | treasuryforge/runner.py:133-152 | a fill, registered, logged, journaled, or a logged refusal |
| Runner.Runner.Decide | treasuryforge/runner.py:102-127 | ruling, denial with its checkpoint, same-tick fill, or pending |
| Runner.Runner.Log | treasuryforge/runner.py:157-161 | an event marked at its own price, which is the last logged |
| RunnerWindows.PrunedIsSince | treasuryforge/policy.py:183-191 | on fills in time order, dropping from the front is filtering |
| RunnerWindows.RunIsSound | treasuryforge/runner.py:86-152 | at the end of every tick the deques look like the full history, and every fill and pending intent was cleared against it |
| RunnerWindows.PrunedAnswersLikeTheHistory | treasuryforge/policy.py:122-139 | on any later calls the engine rules as one that never dropped a fill |
| RunnerWindows.RateLimitHolds | treasuryforge/policy.py:122-128 | no window of window_steps ticks holds more than max_tx_per_window fills |
| RunnerWindows.SpendBudgetHolds | treasuryforge/policy.py:130-139 | in any spend window the earlier fills plus a later one at its decision price stay within budget + 1e-9 |
| RunnerWindows.FillsAreTraced | treasuryforge/runner.py:78-81 | every fill was proposed on one tick and priced at the next, or at the same one without a delay |
| RunnerAccounts.ReportAddsUp | treasuryforge/runner.py:86-152 | at the end of every tick: allowed rulings = fills + fills the wallet refused + the one waiting; for every rule its denials are the rulings with it; one log line for each fill and each denial |
| RunnerAccounts.EveryIntentIsRuledOn | treasuryforge/runner.py:102-114 | the audit trail holds one ruling for each proposal, in order, at its time and price |
| RunnerAccounts.AllowedExecutes | treasuryforge/runner.py:98-127 | an intent allowed on a tick is filled, or refused by the wallet, on the next; on the same without a delay |
| RunnerAccounts.TickIsLogged | treasuryforge/runner.py:133-161 | which lines a tick logs, each with its time, its price and what the wallet is worth at it |
| RunnerAccounts.TickIsSaved | treasuryforge/runner.py:115-152 | a tick writes a checkpoint for each fill and for each denial by a tripped engine, and a ledger line for each fill |
| RunnerAccounts.FinalEquityIsWorth | treasuryforge/runner.py:129 | final equity is what the wallet is worth at the last logged price, and which tick that is |
| RunnerAccounts.AnchorIsFirstWorth | treasuryforge/policy.py:79-80 | the anchor of a run is what the wallet was worth on the first tick with a proposal |
| RunnerAccounts.NothingBelowTheFloor | treasuryforge/policy.py:86-94 | over every run, whatever filled or waits was decided on a tick on which at most max_drawdown_pct of a positive anchor was lost |
| RunnerSafety.TripIsFinal | treasuryforge/runner.py:115-122 | after the tripping tick no fill, no ALLOW, an unchanged engine, and every checkpoint from then on holds it |
| RunnerSafety.OnlyTheAllowedExecutes | treasuryforge/runner.py:107-127 | nothing fills or waits that was not allowed on the tick it was proposed |
| RunnerSafety.RestoreLosesNothing | treasuryforge/runner.py:147-152 | after a crash at any tick's end the checkpoint gives back the wallet and an engine nobody can tell from the lost one; when there is a checkpoint |
| RunnerSafety.LedgerListsTheFills | treasuryforge/runner.py:147-151 | in a run without a crash the ledger lists exactly the fills |
| RunnerCrashes.TickWritesAre | treasuryforge/runner.py:133-152 | the durable writes of a tick in order are those of the step function: at most one fill, first of all, with a checkpoint after it |
| RunnerCrashes.RestartIsGuarded | treasuryforge/policy.py:167-181 | a restart from disk keeps the invariant; with a checkpoint, the anchor, latch and balances too |
| RunnerCrashes.LifeIsGuarded | treasuryforge/journal.py:3-13 | through any ticks, restarts and crashes between any two durable writes, whatever the clock: a checkpoint exists exactly when something filled for good or the breaker tripped, and it has the anchor, the latch and the balances |
| CrashWindows.LifeIsSteady | treasuryforge/journal.py:3-13 | if ticks come in time order, across restarts too: through all that the engine looks like one with the full history of kept fills, and the ledger holds those and the torn ones |
| CrashWindows.RateLimitSurvives | treasuryforge/policy.py:122-128 | on such a clock, in every window the ledger's fills are at most max_tx_per_window and the torn ones in it |
| CrashWindows.SpendBudgetSurvives | treasuryforge/policy.py:130-139 | on such a clock, for every fill in the ledger, the spend window before it exceeds the budget by at most what the torn fills in it came to |
| CrashWindows.LooksFullIff | treasuryforge/policy.py:122-139 | on such a clock, the restored windows look like those of an engine that knows every fill in the ledger exactly when no torn fill is left in either |
| CrashRulings.FullHistoryRules | treasuryforge/policy.py:122-139 | and then it gives the same ruling as that one after any later calls |
| CrashRulings.RulesFullIff | treasuryforge/policy.py:122-128 | without a spend budget it gives the same rulings for ever exactly when no intent gets as far as the windows, or each torn fill in the window is outweighed by kept ones |
| RunnerLosses.RateLimitExceeded | treasuryforge/runner.py:147-152 | a life with a limit of one fill in which a torn fill lets a second through |
| RunnerLosses.ClockRestarts | treasuryforge/market.py:36-42 | a life whose clock starts again from 0, as the simulator's does: no torn fill, and a window of a limit of two has three |
| RunnerCrashes.TripSurvives | treasuryforge/journal.py:3-7 | a trip that its tick wrote down survives every crash after it, in memory and on disk, and nothing fills again, whatever the clock |
| RunnerCrashes.TripSurvivesIff | treasuryforge/runner.py:115-122 | a process that dies inside the tripping tick comes back tripped exactly when all the writes of that tick were made |
| RunnerLosses.TripLost | treasuryforge/runner.py:115-122 | a life in which the trip is lost and the next tick buys |
| RunnerCrashes.AnchorSurvives | treasuryforge/journal.py:3-7 | once anything has filled for good or the breaker has tripped, no crash moves the anchor of the drawdown floor, whatever the clock |
| RunnerCrashes.AnchorSurvivesIff | treasuryforge/journal.py:3-7 | after any life, a crash keeps the anchor exactly when the disk holds a checkpoint by then |
| RunnerLosses.AnchorMoves | treasuryforge/policy.py:79-80 | a life in which denied intents anchor the floor at 1000 and a restart anchors it again at 500 |
| RunnerSafety.OnlyFillsMoveTheWallet | treasuryforge/runner.py:133-152 | the wallet is the start with the fills applied in order |
| RunnerSafety.BalancesAddUp | treasuryforge/wallet.py:35-51 | balances stay nonnegative and are start plus deltas plus at most 1e-9 a fill |
| RunnerSafety.TickNeverGains | treasuryforge/executor.py:29-49 | no tick raises equity at its own price beyond the clamps |
| RunnerSafety.ProfitIsTheMarkets | treasuryforge/runner.py:86-131 | over a run, profit is at most what price moves paid on the inventory held |
| RunnerSafety.FinalMark | treasuryforge/runner.py:129 | which price final equity is marked at, in every case |
| RunnerSafety.UnpricedPositionReadsAsLoss | treasuryforge/runner.py:129 | a one-tick run reports its whole position as a loss |
| OrderBook.WalkBook | treasuryforge/marketlab/fills.py:39-51 | amount and average price of the walk's takings |
| OrderBook.FillsWhatItCan | treasuryforge/marketlab/fills.py:39-51 | it fills min(size, depth) to within 1e-12, within each level |
| OrderBook.WalkIsCheapest | treasuryforge/marketlab/fills.py:39-51 | no way of buying the same quantity costs less |
| OrderBook.WalkIsDearest | treasuryforge/marketlab/fills.py:39-51 | no way of selling the same quantity brings more |
| OrderBook.LargerTakesMore | treasuryforge/marketlab/fills.py:39-51 | a larger order fills at least as much |
| OrderBook.VwapNeverFalls | treasuryforge/marketlab/fills.py:39-51 | the average price of a larger buy is at least that of a smaller one |
| OrderBook.VwapNeverRises | treasuryforge/marketlab/fills.py:39-51 | and that of a larger sell at most |
| OrderBook.BestFirstSorts | treasuryforge/marketlab/fills.py:24-36 | the book is sorted best first, no level lost or invented |
| OrderBook.Fill | treasuryforge/marketlab/fills.py:64-76 | the fill against the sorted side, and its error cases |
| OrderBook.SlippageIsAdverse | treasuryforge/marketlab/fills.py:67-76 | a nonempty fill on an uncrossed book never beats the mid |
| OrderBook.EmptyWalkIff | treasuryforge/marketlab/fills.py:39-51 | exactly when a walk fills nothing, tiny sizes included |
| OrderBook.FillSlippage | treasuryforge/marketlab/fills.py:64-76 | on an uncrossed book: when a fill is empty, what an empty one reports, that the clamp is idle exactly when something filled or the order is a sell, that slippage is the price given up as a part of the mid, and when a fill is partial |
| Audit.AuditLog.constructor | treasuryforge/audit.py:28-32 | a log starts from the digest it is given, whatever the file holds |
| Audit.AuditLog.Record | treasuryforge/audit.py:34-45 | one more entry sealed on the last digest |
| Audit.VerifyChain | treasuryforge/audit.py:48-66 | the check of a file |
| Audit.BlanksDoNotMatter | treasuryforge/audit.py:54-56 | blank lines change no verdict |
| Audit.UntouchedIsAccepted | treasuryforge/audit.py:48-66 | any untouched log, or a truncation of its tail, is accepted |
| Audit.AcceptedIffPrefix | treasuryforge/audit.py:48-66 | accepted exactly when it is a prefix of what was recorded |
| Audit.FirstBadLine | treasuryforge/audit.py:54-66 | the verdict on the first line that does not carry on an untouched log: raised for text that is no JSON and for a missing entry, otherwise broken |
| Audit.ReopenedChain | treasuryforge/audit.py:28-32 | a second log continues the chain exactly when opened with its last digest |
| MrScalp.BacktestMrScalp | treasuryforge/backtest/mr_scalp_backtest.py:115-181 | wherever the code divides by no zero, on bars, signals and parameters alone: the trades are in order and by the rules, and wherever no position is held a worthwhile signal whose bid is traded through opens one; every counter counts what it names, each drift is that of its fill, and their mean follows |
| MrScalp.ExitTrade | treasuryforge/backtest/mr_scalp_backtest.py:127-149 | a trade exactly when some exit rule fires, priced by the first |
| MrScalp.FollowsTheRules | treasuryforge/backtest/mr_scalp_backtest.py:115-178 | a trade of the reference, on bars and parameters alone: the bid it was entered at; no bar in between touches stop or target; the stop comes first on its last bar, the target only when the stop is not touched, the close when neither is; its fees and returns |
| MrScalp.ReturnsAre | treasuryforge/backtest/mr_scalp_backtest.py:144-148 | gross on the entry price; net on what was paid and what came back, with the maker fee only at the target |
| MrScalp.ResolveBid | treasuryforge/backtest/mr_scalp_backtest.py:151-164 | filled exactly when the bar trades down to the bid, else missed; a missed winner exactly when the target was reached within the holding limit; the drift of a fill |
| MrScalp.RestBid | treasuryforge/backtest/mr_scalp_backtest.py:169-178 | a bid rests exactly after a worthwhile signal out of a position, at the close less half the spread; else the signal is skipped on cost |
| MrScalp.ExitWithinLimit | treasuryforge/backtest/mr_scalp_backtest.py:142-143 | a trade holds between 1 and max_hold_bars bars |
| MrScalp.NetAtMostGross | treasuryforge/backtest/mr_scalp_backtest.py:144-148 | fees never improve a trade |
| Allocator.Allocate | treasuryforge/carry_portfolio_allocator.py:46-69 | the weights kept by name, shared names included; with distinct names, each candidate's weight |
| Allocator.CappedByIs | treasuryforge/carry_portfolio_allocator.py:60-65 | with distinct names, one cluster scaled, the others untouched |
| Allocator.WeightWithinCap | treasuryforge/carry_portfolio_allocator.py:52-55 | each weight is nonnegative, within its cap and its share |
| Allocator.WeightWithinAll | treasuryforge/carry_portfolio_allocator.py:52-65 | each weight is within its own cap, the total cap and the cluster cap |
| Allocator.TighterCapIff | treasuryforge/carry_portfolio_allocator.py:52-55 | with own caps up to m every weight is within the global position cap exactly when min(m, total, cluster) is |
| Allocator.LooserOwnCapWins | treasuryforge/carry_portfolio_allocator.py:52-55 | an input on which a looser own cap is given 0.40 under a global cap of 0.25 |
| Allocator.TotalWithinCap | treasuryforge/carry_portfolio_allocator.py:66-68 | the sum never exceeds the total cap, without a renormalisation |
| Allocator.SharedNamesOverspend | treasuryforge/carry_portfolio_allocator.py:66-68 | an input with a shared name on which the sum is 1.5 under a total cap of 1 |
| Allocator.ClusterWithinCap | treasuryforge/carry_portfolio_allocator.py:56-65 | each cluster is within its cap, and at it when scaled |
| Allocator.ProportionsKept | treasuryforge/carry_portfolio_allocator.py:60-65 | scaling keeps proportions inside a cluster |
| Allocator.AllocationIsSafe | treasuryforge/carry_portfolio_allocator.py:46-69 | with distinct names all three caps hold of the returned allocations |

## Left out

- Floating point: rounding, overflow, NaN and infinities; rounding to six decimals is a monotone function that fixes grid prices.
- Network, HTTP, signing, key storage, alerts, the web demo and the print scripts: input and output only.
- JSON text, file handles and a torn last ledger line: an append is durable and a checkpoint atomic.
- Standard errors and t-statistics: `ols` takes square roots of the variances, which are modelled without the root.
- ADF critical values, half life, Sharpe ratios, RSI, EMA, ATR and other statistics: left uninterpreted or given as arbitrary inputs.
- MrScalp.BacktestMrScalp: the indicator signal is an arbitrary input per bar; with a holding limit below 1 the code may look up a bar from the end of the list, and that is excluded.
- Orders.OrderManager.Submit: the symbol, book, side and reason fields of a record, and the quantities inside a fill, are not modelled; `Option` results stand for an exception that escapes.
- Orders.OrderManager.PlaceOnce: an exception that escapes ends the process, as `Service.run` does; a caller that catches it and goes on with the same manager is not modelled.
- CrashRulings.RulesFullIff: with a spend budget only one direction is stated, by `FullHistoryRules`.
- CrashWindows.RateLimitSurvives: lives whose clock goes back are excluded, because the limit fails there.
- Orders.OrderManager.Recover: the order in which the records are visited is arbitrary, and so is that of the outcomes returned.
- Service.Service.Run: preflight, watchdog, staleness gate, agent and policy are an arbitrary sequence of turns; two processes at once are not modelled.
- Runner.Runner.Run: the agent is an arbitrary proposal per tick; reason strings beyond the rule that denied and the audit file are left out, and rulings are kept as a list.
- RunnerSafety.RestoreLosesNothing: crashes at the end of a tick only; `RunnerCrashes` has them between any two durable writes.
- RunnerCrashes.LifeIsSteady: a crash between a wallet or engine update and the next durable write is one after the write before it, since memory is lost either way.
- LiveSupervisor: its step never registers a fill, so the window theorems are about `Runner` only.
- TaxLedger.FifoTaxLedger.constructor: a state file that holds a lot of nonpositive quantity, which no ledger writes, is not considered.
- Momentum.ScalpBook.ObserveBar: a held bar after a close of 0 on which a stop or the trail is hit divides by zero in the code, and is excluded.
- Momentum.RunBook: closes of 0 are excluded, also where nothing is divided by them.
- Momentum.BacktestMomentum: max_hold is at least 1; with a negative one the code need not stop.
- TaxLedger.FifoTaxLedger.GetInventory: the code returns the live lot objects, which a caller could change; upper-casing is for ASCII letters.
- TaxLedger.FifoTaxLedger.AddFill: saving is modelled as the state that the next start loads.
- Audit.AcceptedIffPrefix: the keyed hash is an ideal one, and only digests that were recorded are available to whoever edits the file.
- Threshold ladders (promotion gate, loss limits, maturity, stages, screener, preflight): reading one branch settles them.
- The dead-man's switch across two processes: its read-then-write is not atomic, and assuming that it is would assume the claim.
- Market simulators and Monte Carlo: no claims about probability.
