# The paper-trading bar machine and its backtest twin

One trading account lives on a stream of confirmed candles: it holds cash, at most one open position and at most one
pending entry order. On every candle the paper loop executes what the previous close decided, charges funding, tests
the protective levels, marks the account to market and asks the strategy for a signal. A backtester re-implements the
same machine as one loop over an array of bars, a trade analysis replays closed positions from their candles, and a
set of analytics loops reduce the trades to drawdowns, ranks and evidence. The parts are meant to agree with each
other; this project models them in Dafny and proves where they do, and exactly when they do not.

Prices and money are `real`, times are integer milliseconds, days are UTC days. A savepoint is "the step succeeds or
nothing changed" (`Faults`). The strategy (features, signal, risk, sizing, protective levels of a fill), the execution
engine and the lot and exchange-minimum rules are arbitrary functions handed to the machine.

## How it is organised

- `Market`, `Sorting`: vocabulary, and the stable sort behind every `sorted(..., key=...)`.
- `PnlEngine`, `PositionManager`, `Accounting`, `LotRules`: PnL, liquidation price, the protective rules of one bar,
  slippage, fees, funding, settlement, and the lot size with the exchange minimum.
- `PaperLoop`: what one candle does to one account, as functions. `PaperAccounts`: the same loop on rows updated in
  place; each method leaves exactly the state those functions give, so every theorem below holds of the objects.
- `Ledger`, `Finality`, `Protection`, `Discipline`, `Fates`, `Retry`, `Orphans`, `Funding`, `FundingRuns`, `Survival`,
  `Prices`, `EquityCurves`: what every run of the paper loop keeps, under any interleaving of cycles, retries, rolled-back steps,
  protective passes and rollovers, with entries and signal exits at the next open or at once.
- `Backtest`, `BacktestEngine`: the bar loop as functions and as a class with the loop itself. `BacktestOrder`,
  `BacktestLedger`, `BacktestFunding`, `BacktestEnd`, `Lookahead`: trade order, daily cap, cash conservation, funding over
  a position's life, the curve and the end-of-data close, and no look-ahead as a two-run property.
- `Parity`, `SameFill`, `DataParity`: paper and backtest in lock-step over whole runs, from one fill to its exit, and on
  conditions read off the data.
- `Replay`, `ReplayRuns`: the trade analysis reproduces the extremes that the loop stored bar by bar.
- `Drawdowns`, `CurrencyDrawdowns`, `Ranks`, `Evidence`, `Episodes`: the analytics loops against quadratic or counting
  definitions.

The engine of a paper run in `Parity` is the paper adapter without its random rejects, partial fills and latency.

## What the code does not keep

Each of these is stated as an exact condition or with a concrete input.

- A settlement that falls inside the bar an entry fills on is not charged on that bar when nothing was open before:
  `_load_funding` returns nothing without open positions (`FundingRuns.LoadCoversExactlyWhen`,
  `Funding.FillBarSettlementComesLate`). The next managed bar charges it, at that bar's price. Over a whole life it is
  missed exactly when the position is managed on no bar but its fill bar (`FundingRuns.AloneMissesExactlyWhen` for an
  account alone, `FundingRuns.LateSettlementsAreCaughtUp` in a population whose loads do not split a bar's settlements).
  The backtest charges it on the bar itself.
- The backtest skips a bar without a market context: its settlements are charged at the close of the next bar that has
  one (`BacktestFunding.BacktestChargesExactlyOnce`).
- Paper retires an active account that is flat at the end of its cycle with less cash than `agent_min_viable_equity`; the
  backtest trades on. A stop that leaves 0.5 against the default of 1.0 makes the paper agent DEAD and not the
  backtest's (`SameFill.HalfAUnitIsRetired`); after the same exit the two flags differ exactly when the backtest is
  alive with less than that (`SameFill.SameFillSameExit`).
- With a bankruptcy fraction above zero paper dies on a mark at or below that fraction of its start, the backtest only on
  a mark at or below zero: on a bar the position survives the two agree exactly when the equity is above the fraction
  (`SameFill.MarkDeathsAgreeExactlyWhen`).
- Paper counts an entry on the bar that fills it, the backtest on the bar that signalled it: the daily counters part
  exactly when midnight lies between the two (`Parity.EntryCountsAgreeExactlyWhen`).
- A new day's risk anchor is the equity marked at the last close in paper and at the open in the backtest: over a held
  position the two are equal exactly when the bar opens where the last one closed (`Parity.DayAnchorsAgreeExactlyWhen`).
- Paper tests the exchange minimum at the signal bar's close and again at the fill, the backtest only at the fill. Each
  price refuses exactly the notionals below a threshold of its own, so the backtest opens an entry that paper never
  orders exactly when the notional lies between the threshold of the open and that of the close
  (`Parity.EntriesAgreeExactlyWhen`, `LotRules.RefusedExactlyBelow`). With lots of 0.01 and a minimum of 10, a notional
  of 10.4999 is refused at a close of 150.00 and accepted at an open of 149.99 (`LotRules.OneTickDownIsAccepted`). The
  docstring of `below_min_order_notional` says that decision and fill can never disagree; they agree at one price.
- A trade forced out at the close of a bar it was managed on (a death on the mark, an orphan) has that bar folded into
  its stored extremes, while the analysis replays `[entry bar, exit bar)`: the replayed extreme equals the stored one
  exactly when that bar set no new extreme, and the cross-check passes exactly when the new extreme is within its
  allowance (`Replay.ForcedCloseReproducedExactlyWhen`, `ReplayRuns.EveryTradeReplays`). A pending exit that a retry
  executes after that bar's protective pass is in the same case.
- The relative drawdowns measure falls from running peaks. On a curve that ends below zero a fall from a lower earlier
  point is larger in relative terms, so they are the worst fall from any earlier equity exactly when the last equity is
  not negative, or no two positive equities differ (`Drawdowns.PeaksSufficeExactlyWhen`,
  `Drawdowns.PeaksDoNotAlwaysSuffice`, `EquityCurves.RunDrawdownExactlyWhen`). Where leverage times the slipped taker
  fee is at most one, less the billionth that guards the lot rounding, no equity of a backtest is negative and the
  reported number is the worst fall (`Drawdowns.AffordableDrawdownIsTheWorst`).
- The evidence index agrees with the table scan for a version exactly when the table lists that version's rows in the
  order they were computed (`Evidence.LookupsAgreeExactlyWhen`); the queries order them so.
- An entry order that the engine refuses ends FAILED, so an order's fates are three. On the bar after its signal, with no
  halt and an active owner, it is filled exactly when the engine fills it and fails on that bar exactly when the engine
  refuses; a cycle on any other bar, or under a halt, cancels it (`Fates.CycleFate`).

## Model

| member | source | states |
|---|---|---|
| PnlEngine.LiquidationPriceIsTheMarginThreshold | backend/app/analytics/pnl_engine.py:53-69 | an account is liquidatable at a positive mark if and only if the mark is at or beyond the liquidation price, long and short, and never when there is no price |
| PnlEngine.AtLiquidationEquityIsMaintenance | backend/app/analytics/pnl_engine.py:56-62 | at the liquidation price equity equals the maintenance margin |
| PositionManager.CollectAdverse | backend/app/agents/position_manager.py:91-106 | the list of adverse levels that the bar touches, in the order they are tried |
| PositionManager.EvaluateByList | backend/app/agents/position_manager.py:82-117 | collecting, sorting by price and priority and taking the head selects the level that the list-free definition selects |
| PositionManager.ConservativePath | backend/app/agents/position_manager.py:82-117 | in the prices the bar trades at: an adverse exit fires if and only if some price of the bar is at or beyond the liquidation level, the stop or the armed trailing level (its distance behind the best price, of this bar too if configured), on either side; it takes the level that comes first, by price and then by priority, and fills at the worse of it and the open; the take-profit fires if and only if none is reached and some price is at or beyond it, at that level |
| PositionManager.TrailFollowsTheBest | backend/app/agents/position_manager.py:120-125 | over any run of survived bars the extremes are those of the bars, and the trail is armed exactly if it was or the best price reached the activation |
| PositionManager.SameBarExtremeFiresOnASuperset | backend/app/agents/position_manager.py:85-89 | counting the bar's own extreme never loses an adverse exit |
| PositionManager.TrailingNeverLoosens | backend/app/agents/position_manager.py:72-79 | over any run of bars an armed trailing stop stays armed and its level never moves away from the price |
| PositionManager.ArmingNeverUndoes | backend/app/agents/position_manager.py:120-125 | folding in a bar never disarms the trailing stop |
| Accounting.AdverseExitLeavesNoBadDebt | backend/app/agents/decision_loop.py:965-983 | unless the bar opens beyond the liquidation price, an adverse exit settles without bad debt whenever s + f(1 + s) <= mmr, long and short |
| Accounting.ShortLiquidationBoundIsExact | backend/app/execution/accounting.py:46-55 | for a short liquidated at its liquidation price that bound is exact: beyond it there is bad debt |
| Accounting.CostsAreFractions | backend/app/execution/fillmodel.py:9-31 | the cost model slips and charges by fractions, adversely to the side being closed |
| Accounting.CostsByKind | backend/app/execution/fillmodel.py:9-31 | slippage and charges by order kind: base and impact, the stop multiple, none and the maker fee for take-profits, the penalty for liquidations |
| Accounting.SlippageIsAdverse | backend/app/execution/fillmodel.py:22-27 | buyers never pay less than the reference and sellers never receive more, on entries and exits of either side |
| LotRules.RefusedExactlyBelow | backend/app/execution/sizing.py:98-111 | at any price the exchange minimum refuses exactly the notionals below that price's threshold - the lots needed for the minimum, less the rounding guard, at that price - and nothing when it is switched off |
| LotRules.TradedExactlyFrom | backend/app/execution/paper_adapter.py:99-105 | the fill trades exactly the notionals from that threshold on, or without a minimum those that buy a lot: the test on the notional and the test on the floored lots decide alike at one price |
| LotRules.RefusalsStandExactlyWhen | backend/app/execution/sizing.py:98-111 | everything refused at one price is refused at another exactly when there is no minimum or its threshold does not come down |
| LotRules.OneTickDownIsAccepted | backend/app/execution/sizing.py:98-111 | a notional of 10.4999 with lots of 0.01 and a minimum of 10 is refused at 150 and accepted at 149.99 |
| LotRules.FollowedRulesRoundDown | backend/app/execution/paper_adapter.py:60-64 | rounding to lots adds at most the guard's billionth to a quantity |
| PaperAccounts.AgentRow.UpdateEquity | backend/app/agents/lifecycle.py:111-133 | the row after a mark: equity, peak, drawdown, milestones and death, with the milestone loop |
| PaperAccounts.AgentRow.MarkDead | backend/app/agents/lifecycle.py:136-148 | death freezes the final figures once and never again |
| PaperAccounts.PaperAccount.AccrueFunding | backend/app/agents/decision_loop.py:833-851 | the charging loop debits each settlement that is due exactly as specified and records one row for each |
| PaperAccounts.PaperAccount.ManageOpenPosition | backend/app/agents/decision_loop.py:854-902 | funding, protective exit, margin test and mark of one bar, or nothing when the bar was already processed |
| PaperAccounts.PaperAccount.ClosePosition | backend/app/agents/decision_loop.py:920-1026 | the whole account after an exit attempt: booked trade, counted refusal, or forced settlement |
| PaperAccounts.PaperAccount.FillEntry | backend/app/agents/decision_loop.py:737-812 | the whole account after an entry attempt: order status, new position, entry fee, counters, possible death |
| PaperAccounts.PaperAccount.ExecutePendingEntry | backend/app/agents/decision_loop.py:695-710 | a pending entry fills only on the bar after its signal, with no halt and an active owner; else it is cancelled |
| PaperAccounts.PaperAccount.ExecutePendingExit | backend/app/agents/decision_loop.py:815-827 | a pending exit executes at the open of the bar after its signal and is dropped on any other |
| PaperAccounts.PaperAccount.ExecuteNextOpenDecisions | backend/app/agents/decision_loop.py:677-692 | a pending exit comes before a pending entry |
| PaperAccounts.PaperAccount.PlaceEntry | backend/app/agents/decision_loop.py:539-645 | the gates of an entry signal in their order, and the pending order or immediate fill behind them |
| PaperAccounts.PaperAccount.ProcessAgent | backend/app/agents/decision_loop.py:463-645 | one agent's whole bar, including the retirement of an untradeable account |
| PaperAccounts.PaperAccount.ProtectOne | backend/app/agents/decision_loop.py:419-439 | the protective pass for one position and the forced close of an orphan |
| PaperAccounts.PaperAccount.CancelStalePending | backend/app/agents/decision_loop.py:442-451 | exactly the pending entries older than one bar are cancelled |
| PaperAccounts.PaperAccount.Retire | backend/app/agents/lifecycle.py:220-261 | the account after its generation ends: position closed at the mark, entries cancelled, figures frozen |
| PaperAccounts.ProtectOpenPositions | backend/app/agents/decision_loop.py:346-401 | the protective sweep over a population, each position in its own savepoint |
| PaperAccounts.RunDecisionCycle | backend/app/agents/decision_loop.py:202-343 | a committed cycle over a population leaves every account as its own cycle would: no agent's failure or loss touches another's rows |
| Ledger.RunsBalance | backend/app/execution/accounting.py:104-113 | after any run, rollovers and failures included: balance = start + realized + bad debt - open entry fee - open funding; realized, fees, funding and bad debt equal the sums over the trades and the open position; every counted entry is a trade or still open; a flat account's equity is its balance |
| Ledger.BookBalances | backend/app/agents/decision_loop.py:965-1016 | booking a close keeps all cash identities and appends a trade whose own books balance |
| Ledger.ChargeBalances | backend/app/agents/decision_loop.py:839-851 | accrued funding equals the sum of the recorded payments, and the cash identity holds after each |
| Ledger.RolledOverBalances | backend/app/agents/lifecycle.py:220-249 | a rollover close keeps the cash identities |
| Finality.RunsFreeze | backend/app/agents/decision_loop.py:1008-1016 | an ended and flat account reports its cash as final equity and realized PnL plus bad debt as final result; a running one reports nothing |
| Finality.RolloverSettlesAtTheMark | backend/app/agents/lifecycle.py:217-261 | a rollover leaves the equity at the mark less the fee on the marked notional, floored at zero with the shortfall recorded; the trade's gross is the unrealized PnL there, and that is the final equity of its owner |
| Finality.FlatRolloverFreezes | backend/app/agents/lifecycle.py:257-260 | a flat active owner retires with the equity it had; a flat ended one is untouched |
| Protection.RunsEvaluateEachBarOnce | backend/app/agents/decision_loop.py:346-401 | over any interleaving and any order of bars, whatever the fill timing, no position is evaluated twice on one bar, and its last processed bar and exit attempts never decrease |
| Protection.StepKeeps | backend/app/agents/decision_loop.py:321-329 | a pass that commits without protective failures leaves every open position processed on its bar |
| Protection.FailedStepsAreRolledBack | backend/app/agents/decision_loop.py:346-401 | a failed agent step, protective step or commit leaves what was there before it |
| Discipline.RunsKeep | backend/app/agents/decision_loop.py:346-401 | over any run with next-open or immediate fills no settlement is charged twice, nor one from before the opening, never two pending entries nor one beside a position, entries fill or fail on signal bar + interval or at once, signal exits on the bar after their signal or on it, and the dead stay dead |
| Discipline.FreshRunsKeep | backend/app/agents/decision_loop.py:346-401 | every run from a fresh account keeps all of that and evaluates no bar twice |
| Discipline.StepKeeps | backend/app/agents/decision_loop.py:202-343 | one event keeps the discipline and only moves the account forward |
| Discipline.CycleKeeps | backend/app/agents/decision_loop.py:321-329 | after a committed cycle every open position has been processed (without protective faults) and no entry is pending that missed its bar |
| Discipline.CloseKeeps | backend/app/agents/decision_loop.py:952-963 | a refused exit keeps the position, counts one attempt, and is forced off the live venue at the limit |
| Discipline.NextOpenKeeps | backend/app/agents/decision_loop.py:677-710 | executing the pending decisions leaves a flat account without a pending entry, which is what the placing of the next one relies on |
| Fates.CycleFate | backend/app/agents/decision_loop.py:695-710 | one cycle fills, fails, cancels or leaves a pending entry, each with the exact condition on the bar, the halt, the owner, the engine and the agent's step |
| Fates.EntryFate | backend/app/agents/decision_loop.py:695-710 | executing a pending entry: filled, failed or cancelled exactly when, and no other order touched |
| Fates.OrderedExactlyWhen | backend/app/agents/decision_loop.py:539-645 | a signal becomes an order exactly when it is past the cooldown, below the daily cap, granted by the risk checks, carried by the margin and, on paper, not below the exchange minimum; which signals leave a decision row |
| Fates.WithoutDnaOnlyProtects | backend/app/agents/decision_loop.py:266-273 | an agent without a valid DNA is paused if flat, and otherwise its position is only protected |
| Retry.RetryChangesNothing | backend/app/agents/decision_loop.py:254-259 | in either fill timing, running a completed, failure-free cycle again on the same bar changes nothing, decision row or not, whatever the retry loads, however halts, risk and the engine would decide now, and failing or not |
| Retry.ProtectAfterCycleChangesNothing | backend/app/agents/decision_loop.py:861-862 | a later protective pass on that bar, with its own loads and fills, changes nothing |
| Orphans.OrphanIsResolved | backend/app/agents/decision_loop.py:419-439 | off the live venue, in either fill timing, a position whose owner is not active is closed within N - attempts passes, however often the engine refuses |
| Orphans.PassResolves | backend/app/agents/decision_loop.py:952-963 | each pass closes the orphan or adds one attempt below the limit |
| Orphans.DeathLeavesNothingUntried | backend/app/agents/decision_loop.py:510-516 | an owner that dies on a bar keeps its position only if the engine refused its exit on that bar |
| Funding.LoadedCoversExactlyWhen | backend/app/agents/decision_loop.py:176-186 | a cycle charges a position exactly what is due if and only if everything it owes is later than the oldest charged time the load started from |
| Funding.OpenPositionsAreCovered | backend/app/agents/decision_loop.py:289 | a position that was open when the cycle started is always covered |
| Funding.FillBarSettlementComesLate | backend/app/agents/decision_loop.py:176-186 | a settlement inside the fill bar is due, not loaded on that bar, and loaded by any later one |
| Funding.AccrualChargesExactlyOnce | backend/app/agents/decision_loop.py:833-851 | covered accrual brings a fully charged position up to the bar's close, however many bars were skipped |
| Funding.AccrualTakes | backend/app/execution/accounting.py:37-40 | accrual takes quantity times close times the sum of the due rates from a long and gives it to a short |
| Funding.LongsPayShorts | backend/app/execution/accounting.py:37-40 | at positive rates a long loses cash and a short gains it |
| Funding.FundingIsZeroSum | backend/app/execution/accounting.py:37-40 | a long and a short of equal size charged the same settlements net to zero |
| FundingRuns.SettlementsChargedExactlyOnce | backend/app/agents/decision_loop.py:833-851 | over any interleaving, bar order and fill timing, if each pass loads what the position it manages owes, the rows of every position and trade are exactly the published settlements from the opening to the end of the last managed bar, once each |
| FundingRuns.LoadCoversExactlyWhen | backend/app/agents/decision_loop.py:176-186 | the code's load covers its pass exactly when no settlement falls inside a bar on which a pending entry may fill, unless another position's load brings it |
| FundingRuns.LoadedSettlementsChargedExactlyOnce | backend/app/agents/decision_loop.py:176-186 | if that holds on every bar of the run, nothing is missed or late |
| FundingRuns.LateSettlementsAreCaughtUp | backend/app/agents/decision_loop.py:176-186 | with the code's loads, entries filling on settlement bars included: a position or trade misses a settlement exactly when it was managed on no bar but its fill bar, has no row, and one fell inside that bar; otherwise each is charged exactly once |
| FundingRuns.AloneMissesExactlyWhen | backend/app/agents/decision_loop.py:176-186 | for an account alone, over any run: missed exactly when managed on no bar but the fill bar and a settlement fell inside it |
| FundingRuns.LoadIsWholeExactlyWhen | backend/app/agents/decision_loop.py:176-186 | a load brings a fill bar's settlements all or not at all exactly when the oldest charged time does not lie between them |
| FundingRuns.OneSettlementIsWhole | backend/app/agents/decision_loop.py:176-186 | a bar with at most one settlement inside is never split |
| Survival.SurvivorHoldsItsMargin | backend/app/agents/decision_loop.py:890-900 | a bar that survives its evaluation closes with the margin intact, so the liquidation-at-close branch is unreachable |
| Survival.SurvivedBarOnlyMarks | backend/app/agents/decision_loop.py:886-902 | a survived bar only marks; it leaves equity positive and kills the owner exactly when equity is at or below the bankruptcy level |
| Survival.AdverseExitBooksNoBadDebt | backend/app/agents/decision_loop.py:965-983 | the trade that the loop books for an adverse exit has no bad debt, unless the bar opens beyond the liquidation price, whenever slippage, fee and penalty fit in the maintenance margin |
| Prices.EveryFillIsPriced | backend/app/agents/decision_loop.py:905-1016 | over any run, refusals included: every position was entered at the slipped open or close of its entry bar, and every trade left at its reason's reference on its exit bar - the stop or the gapped open, the take-profit, the open after a signal, the close for deaths and orphans - slipped against the account, charged by its kind, filled or forced |
| Prices.ForcedIsModelled | backend/app/agents/decision_loop.py:905-963 | a close the engine refused is settled exactly as an engine that fills at the modelled price would, but for the attempt and the mark |
| Prices.StaysOpenExactlyWhen | backend/app/agents/decision_loop.py:952-963 | a close leaves the position open exactly when the engine refuses it and, off the live venue, attempts are left |
| Prices.AttemptsHaveFreshIds | backend/app/agents/decision_loop.py:930-933 | a refused exit is never submitted again under the same attempt id |
| BacktestEngine.Engine.RunBacktest | backend/app/backtesting/engine.py:265-411 | the bar loop with its break and the end-of-data close computes the specified run |
| BacktestEngine.Engine.Iterate | backend/app/backtesting/engine.py:265-400 | one pass of the loop body computes the specified iteration |
| BacktestEngine.Engine.ApplyFunding | backend/app/backtesting/engine.py:284-291 | the moving-mark funding loop computes the specified charge |
| BacktestEngine.Engine.Close | backend/app/backtesting/engine.py:236-263 | the nested close: cash, bad debt, trade, cooldown and death |
| Backtest.StoppedStays | backend/app/backtesting/engine.py:311-313 | once the loop is left, no later bar changes the result |
| BacktestLedger.BacktestBalances | backend/app/backtesting/engine.py:236-263 | for any bars, funding and strategy: final balance = start + net + bad debt of the trades, less what a position left open by a death has paid; total funding and bad debt are the sums |
| BacktestFunding.BacktestChargesExactlyOnce | backend/app/backtesting/engine.py:284-291 | before every iteration an open position and every trade have paid, for each visited bar from the entry on, exactly the settlements since the last one at that bar's close, and nothing is left over |
| BacktestFunding.EachSettlementHasItsBar | backend/app/backtesting/engine.py:284-291 | the bars of a life share the settlements published since the signal's close, each to exactly one bar |
| BacktestFunding.FinishedTradesAreFunded | backend/app/backtesting/engine.py:402-411 | the same of every trade of the finished backtest: through the exit bar, or up to the bar before a next-open exit |
| BacktestFunding.LoopTakes | backend/app/backtesting/engine.py:284-291 | one bar takes quantity times close times the sum of the due rates from a long's cash and gives it to a short's |
| BacktestEnd.EndIsWorthTheLastClose | backend/app/backtesting/engine.py:402-411 | the final cash of a position open at the end is the equity at the last close less slippage and fee, floored at zero with the shortfall recorded, and it is the curve's last point |
| BacktestEnd.FreeEndKeepsTheCurve | backend/app/backtesting/engine.py:402-411 | without costs that close leaves the curve where the last mark put it |
| BacktestEnd.DeadEndsAsItDied | backend/app/backtesting/engine.py:402-411 | a dead or flat run is reported as it is |
| BacktestEnd.IterationMarks | backend/app/backtesting/engine.py:394-400 | an iteration appends the equity at its bar's close and leaves the loop exactly when nothing is left |
| BacktestEnd.PeakIsHighest | backend/app/backtesting/engine.py:394-400 | until then the peak is the highest of the start and all points |
| BacktestOrder.TradesAreOrderedAndDisjoint | backend/app/backtesting/engine.py:331-342 | entry <= exit < next entry, and each entry's signal bar is at or past the previous exit plus its cooldown, in the finished backtest |
| BacktestOrder.DailyCapHolds | backend/app/backtesting/engine.py:274-278 | no UTC day has more entry signals taken than the DNA's cap |
| Lookahead.NoLookAhead | backend/app/backtesting/engine.py:265-400 | two runs that agree on bars 0..k - 1, on the open of bar k and on the settlements up to bar k - 1 are in the same state before iteration k, whatever the rest of bar k and their futures |
| Lookahead.ChargeReadsOnlyThePast | backend/app/backtesting/engine.py:284-291 | later settlements take no part in a bar's funding |
| Parity.PaperMatchesBacktest | backend/app/agents/decision_loop.py:854-902 | on every bar of the window paper at the open holds what the backtest holds: cash, bad debt, funding, position, cooldown, death, entries of the day, and the same trades with the same bars, order kinds, prices, fees and results; and the management of that bar, the last included, does the same to both |
| DataParity.PaperMatchesOnData | backend/app/backtesting/engine.py:265-400 | the same from conditions on the data and the backtest alone: sizes by cash, every entry signal followed by a bar of its day without a settlement inside and with a threshold that does not come down, viable cash, and the code's own loads |
| SameFill.SameFillSameExit | backend/app/backtesting/engine.py:279-330 | from the same fill, through whole paper cycles, over the same bars, exit signals and covered loads: both hold the same position at each open, close it on the same bar with the same trade and books, at the end of the bar or at the next open, the last bar included; dead together, but for paper's retirement of a flat account below the viable equity, which is exact |
| SameFill.EndOfBar | backend/app/agents/decision_loop.py:463-473 | one whole cycle against the management of one bar, with the exact condition of the retirement |
| SameFill.HalfAUnitIsRetired | backend/app/agents/decision_loop.py:463-473 | a stop that leaves 0.5 with a viable equity of 1.0: the backtest lives, paper is DEAD |
| SameFill.MarkDeathsAgreeExactlyWhen | backend/app/agents/lifecycle.py:131-133 | on a survived bar the two death flags agree exactly when the equity is above the bankruptcy fraction of the start |
| Parity.SettleAgrees | backend/app/agents/decision_loop.py:965-1026 | both machines settle a close to the same books, cooldown and death |
| Parity.ChargesAgree | backend/app/backtesting/engine.py:284-291 | testing every event against the moving mark charges exactly the settlements due at the start, as paper does |
| Parity.StepInParallel | backend/app/backtesting/engine.py:265-400 | one paper cycle and one backtest iteration keep the two in step |
| Parity.EntriesAgreeExactlyWhen | backend/app/agents/decision_loop.py:598-621 | on a due entry of the same size the backtest opens what paper never orders exactly when there is a minimum and the notional is below the close's threshold and not below the next open's |
| Parity.EntryCountsAgreeExactlyWhen | backend/app/backtesting/engine.py:390-392 | the two daily counters stay equal over an entry exactly when signal and fill bar are of one day |
| Parity.DayAnchorsAgreeExactlyWhen | backend/app/backtesting/engine.py:275-277 | over a held position the two day-start equities are equal exactly when the bar opens at the last close |
| Parity.SameAnchorsSameSize | backend/app/backtesting/engine.py:357-366 | on the same cash, peak and day-start equity both ask the strategy for the same size |
| Replay.AnalyzeTrade | backend/app/analytics/trade_quality.py:138-163 | the scan finds the last bar opened by the close, and the replay takes the extremes of the bars before it |
| Replay.RunsTrack | backend/app/agents/decision_loop.py:886-889 | over every run with filling exits, stored extremes are the entry price and the candles of the managed bars |
| Replay.ReplayReproducesExtremes | backend/app/analytics/trade_quality.py:232-240 | if the managed bars are those of [entry bar, exit bar), the replay equals the stored extremes and the cross-check passes |
| Replay.ForcedCloseReproducedExactlyWhen | backend/app/analytics/trade_quality.py:160-163 | a trade also managed on its exit bar is reproduced exactly when that bar set no new extreme, and passes the cross-check exactly when the new extreme is within a billionth, absolute or of the entry or replayed price |
| ReplayRuns.EveryTradeReplays | backend/app/analytics/trade_quality.py:139-163 | in every run of one cycle per bar, agent steps failing or not, every trade's exit bar is found and its extremes are replayed exactly; of deaths and orphans the extremes exactly when the last bar set no new one, the cross-check exactly when it is within the allowance |
| ReplayRuns.RunsManage | backend/app/agents/decision_loop.py:321-324 | every such run manages each position on every bar from its entry to its exit |
| Drawdowns.MaxDrawdownPct | backend/app/backtesting/engine.py:111-119 | the one-pass result is the largest relative fall from a running peak over all pairs of points |
| EquityCurves.RunsRecordTheWorstFall | backend/app/agents/lifecycle.py:111-133 | over any run the recorded peak, drawdown and best milestone are those of all the equities the living account was marked at: the drawdown is the same quadratic quantity, the milestone the highest reached |
| Drawdowns.PeaksSufficeExactlyWhen | backend/app/backtesting/engine.py:111-119 | falls from peaks are the worst of all falls exactly when the last equity is not negative or no two positive equities differ |
| Drawdowns.PeaksDoNotAlwaysSuffice | backend/app/backtesting/engine.py:111-119 | a curve on which they are not |
| EquityCurves.RunDrawdownExactlyWhen | backend/app/agents/lifecycle.py:117-133 | that condition for the marks of any run of a solvent account |
| Drawdowns.BacktestDrawdownExactlyWhen | backend/app/backtesting/engine.py:394-411 | that condition for the curve of a finished backtest |
| Drawdowns.AffordableDrawdownIsTheWorst | backend/app/backtesting/engine.py:394-411 | where entry fees fit in the cash no equity is negative and the reported drawdown is the worst fall from any earlier equity |
| Drawdowns.BacktestCurveStaysPositive | backend/app/backtesting/engine.py:394-400 | at most the last point of a backtest's curve is not positive |
| CurrencyDrawdowns.RealizedCurve | backend/app/analytics/fitness_forward.py:75-85 | the account after each close, at ascending close times |
| CurrencyDrawdowns.MaxDrawdownCurrency | backend/app/analytics/fitness_forward.py:88-96 | the least change of the balance over all pairs of points of the sorted curve |
| CurrencyDrawdowns.DrawdownFromCurve | backend/app/analytics/fitness_forward.py:303-310 | the same quantity for a list of results |
| CurrencyDrawdowns.CellDrawdown | backend/app/analytics/strategy_regime.py:163-175 | the same quantity for a cell, visited through sorted positions |
| CurrencyDrawdowns.BaseDoesNotMatter | backend/app/analytics/fitness_forward.py:303-310 | the number does not depend on the base equity |
| CurrencyDrawdowns.ThreeDrawdowns | backend/app/analytics/strategy_regime.py:163-175 | on any trades, ties included, the three drawdowns are one number |
| CurrencyDrawdowns.WindowNeverWorse | backend/app/analytics/fitness_forward.py:275-299 | a forward window's drawdown is the fall over one stretch of the lifetime curve, so it is never worse than the lifetime drawdown |
| CurrencyDrawdowns.WithinSorts | backend/app/analytics/fitness_forward.py:284-299 | choosing a window's trades and sorting them is choosing them from the sorted list |
| CurrencyDrawdowns.TiesKeepTheirOrder | backend/app/analytics/fitness_forward.py:75-85 | trades that closed together keep their listed order |
| Ranks.AverageRanks | backend/scripts/report_fitness_forward.py:56-69 | every element gets the number of smaller elements plus half of (the number of equal ones plus one) |
| Ranks.RanksFollowTheValues | backend/scripts/report_fitness_forward.py:56-69 | ranks order and tie exactly as the values do |
| Ranks.RanksSum | backend/scripts/report_fitness_forward.py:56-69 | the ranks sum to n(n + 1)/2 |
| Evidence.ScanUpTo | backend/scripts/evaluate_fitness_versions.py:76-83 | the scan returns the last row of the version, in table order, not later than t |
| Evidence.ByVersion | backend/app/analytics/analytics_store.py:543-547 | the index holds each version's rows in table order, and no other key |
| Evidence.LatestUpTo | backend/app/analytics/analytics_store.py:557-563 | the break returns the row before the first that is later than t |
| Evidence.LookupsAgreeExactlyWhen | backend/app/analytics/analytics_store.py:543-563 | index and scan agree for every t exactly when the version's rows are listed in order |
| Evidence.IndexReplacesScan | backend/app/analytics/analytics_store.py:543-563 | on an ordered table the index returns the scan's row for every version and time |
| Evidence.NothingNewerUpTo | backend/scripts/evaluate_fitness_versions.py:76-83 | on an ordered table the row found is the newest evidence not later than t, and none is found only when there is none |
| Episodes.EpisodeIds | backend/app/analytics/strategy_regime.py:49-66 | the dictionary the loop builds numbers every bar by its run |
| Episodes.SameEpisodeExactlyWhen | backend/app/analytics/strategy_regime.py:49-66 | two bars share an episode exactly when the regime did not change between them |
| Episodes.EveryNumberIsUsed | backend/app/analytics/strategy_regime.py:49-66 | episode numbers have no gaps |
| Episodes.OldNumbersStayExactlyWhen | backend/app/analytics/strategy_regime.py:52-58 | appending a bar keeps every old number exactly when the bar is new, or the regime has not changed since the bar was last listed |
| Episodes.HistoryIsNotRenumbered | backend/app/analytics/strategy_regime.py:52-58 | history that grows only by new bars is never renumbered |

## Left out

- Discipline.RunsKeep: one bar interval per run and settlements loaded in ascending order, as the query orders them; Protection.RunsEvaluateEachBarOnce asks for neither.
- FundingRuns.SettlementsChargedExactlyOnce: one list of loaded rates serves the agents' steps and the sweep of a cycle, which the code loads separately.
- Parity.PaperMatchesBacktest: assumes deterministic full fills, contiguous bars, a context on every bar and bankruptcy fraction zero (the default); of the run as it happens, that a due entry is granted the same size by both, that its refusal at the close stands at the open, that no entry fills past midnight, that paper does not retire the flat account, that loads cover, and that no entry fee empties the account; DataParity.PaperMatchesOnData derives these from the data for sizes that depend on cash alone. Equity marks, peaks and day-start anchors are not compared.
- SameFill.SameFillSameExit: contiguous bars with a context on each bar of the life, covered loads, deterministic full fills and bankruptcy fraction zero.
- DataParity.PaperMatchesOnData: the same setting; the entries of a day's last bar, of a bar before a settlement and of a falling threshold are excluded because the machines do differ there.
- FundingRuns.LateSettlementsAreCaughtUp: not for a load that brings only the later of two settlements inside one fill bar.
- Prices.EveryFillIsPriced: for an engine that refuses, or fills at the modelled price and fee of the quantity it reports; rollovers price at the mark (Finality.RolloverSettlesAtTheMark).
- ReplayRuns.EveryTradeReplays: assumes next-open entries, one cycle per bar, and that exits and the protective savepoint succeed; rollover closes are not replayed.
- Lookahead.NoLookAhead: features, indicators and signals are functions of the bars up to the current one; the vectorised feature code is not part of this model.
- Drawdowns.PeaksSufficeExactlyWhen: stated for curves that turn negative at most at their last point, which is where both machines stop.
- Ledger.RunsBalance: over exact arithmetic; floating-point rounding and the reconciliation tolerance are not modelled.
- Accounting.AdverseExitLeavesNoBadDebt: the settlement alone, for any slippage and charge fractions; Survival.AdverseExitBooksNoBadDebt is the trade that the loop books with the cost model's own.
- PaperAccounts.PaperAccount.PlaceEntry: the council veto and the Risk Engine are one verdict function; council internals are language-model calls.
- PaperAccounts.PaperAccount.ExecutePendingEntry: the branch that fills at a price observed after the decision is not modelled.
- PaperAccounts.PaperAccount.FillEntry: the ways an order fails are one status; a partial fill is a fill of the quantity it reports; display columns (stored liquidation price, margins, unrealized PnL, slippage cost, regimes, stages) are dropped.
- PaperAccounts.PaperAccount.Retire: one account at a time; the loop over a generation and its report counts are not modelled.
- Replay.AnalyzeTrade: the fallback for a missing entry bar and the excursion results are not modelled.
- CurrencyDrawdowns.CellDrawdown: close times are integers where the cell uses epoch seconds as floats.
- Entry prices observed after the decision (`first_observed_after_decision`), the venue-mismatch halt and the trading-halt lookup: a halt is an input.
- Strategy signals, sizing methods, the Risk Engine, stop and take-profit formulas and the minimum stop distance: uninterpreted functions.
- Execution delay, partial fills, random rejects and the other stress knobs of the backtester, and its risk-engine switch.
- SQL sessions, leases, metrics, logging and wall-clock stamps: only rollback, uniqueness of rows and a failed commit remain.
- The full excursion analysis (MFE and MAE times, R multiples, classification), bootstrap, Wilson and fitness formulas: clipping or library numerics that would add only easy members.
- The correlation index by agent, `forward_window` and `reconstruct_fitness_at`: filters and expressions.
