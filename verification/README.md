# Trading engine: a Dafny model

The trading engine lets independent agents propose trades. The proposals are put to a vote, passed through a row of
execution gates, replayed over history to judge a strategy, searched over parameters, filled on paper, and measured.
This project models the parts of that engine that keep state or do arithmetic on money, and proves what they keep.

| file | what it models |
|---|---|
| `ConsensusVotes.dfy` | votes, the two consensus rules, and the pending votes of one (ticker, side) as a cache of its history |
| `ConsensusRuns.dfy` | whole runs over many keys, in memory and from a vote table, where nobody repeats a live vote |
| `ConsensusLog.dfy`, `ConsensusRepeats.dfy` | the vote tables on every run, and exactly when they decide like memory |
| `ConsensusRouters.dfy` | vote weights, and the two consensus routers as objects |
| `Execution.dfy` | the gates before an order, live and in shadow mode |
| `Portfolio.dfy`, `Backtest.dfy` | the simulated portfolio, the bar cursor, the backtest loop and its causality |
| `BacktestLedger.dfy`, `LookAhead.dfy` | the books of a backtest in every state it reaches; what its agents are shown |
| `Tuning.dfy` | genetic search and grid search |
| `PredictionMarket.dfy` | the prediction-market replay |
| `BookWalk.dfy`, `PaperTrading.dfy` | pricing a fill by walking the book; the paper trader's account |
| `WalkForward.dfy` | rolling train and test windows |
| `Registry.dfy` | reconciling running agents with the registry |
| `Scans.dfy`, `Scorecard.dfy` | drawdown and streak scans, expectancy, curves and breakdowns |
| `ConsensusSim.dfy` | the counting of the consensus simulator |
| `Collections.dfy` | options, filters and sums, stable sorting, insertion-ordered dicts |

Objects whose methods update fields are classes; each of their methods is proved to take its whole state to the value of
a function of the old state (`Placed`, `Closed`, `Reconciled`, `Outcome`, ...), and the theorems are about that function or,
for the consensus routers, about a ghost history. A dict is the sequence of its entries in insertion order wherever its
order can be observed. Money is `real`, or `int` where the code counts cents; time is `int`. Agents, strategies, the risk
engine, factories, commission models and backtest functions are arbitrary functions; random draws are arbitrary values.

## Where the code differs from the obvious reading

- A vote stamped earlier than one before it can have a window that admits a vote the router has already dropped
  (`LateClockLosesVote`; exactly when, `PendingIsRecentIff`).
- The vote table of the weighted router is an append log and the consensus rule counts rows, so votes that their agent
  has replaced count and weigh again (`AppendLogCountsRepeats`): one agent can elevate alone (`OneAgentElevatesAlone`).
  `OrderedRunsAlikeIff` says exactly on which ordered runs the two forms elevate the same arrivals, with weights and
  without, and `RunsAlikeIff` on which runs under any clock. The statements of that store are modelled as written; the
  schema the repository ships (trading/storage/db.py:302-309) is that of the basic router, with one row per agent.
- A regime marked unanimous is never stricter than another with the same threshold (`UnanimousDemandsNoMore`), and under
  it the simulator ignores weights although the router does not (`SimulatorDecidesLikeRouter`). An agent's repeated votes
  at one bar do not count again in the simulator but do weigh again (`RepeatsDecideLikeRouter`).
- A partial exit can round to an order for nothing (`AllowedQuantityPositive`, `PartialExitOfNothing`).
- Opening with a SELL credits the commission (trading/backtesting/engine.py:85); the ledger is stated with that sign.
- After the bar loop `bars` is None, so the final closes happen at the entry price of each entry
  (trading/backtesting/engine.py:347-355), not at the last price their comment announces. An entry of the wrong side
  doubles the position; the last entry of its ticker still removes it (`CloseOutEmpties`).
- The cursor aligns tickers by place, not by time, and sorts its own copy of the bars while the past is cut from the
  caller's. Agents can therefore be shown bars later than the current one; `NoFutureIffTimely` says exactly when not, and
  `SortedIsNotEnough` is an input with sorted bars on which they are.
- A close settles one trade record only, on its own entry price, so recorded results can differ from realised gains
  (`TwoBuysOneSale`; exactly when not, `RecordsGainIff`).
- The penalty for quantity beyond the book raises a seller's average exactly when the penalty price is above the average
  of the book (`OversellingPays`).
- The paper trader's `total_pnl` forgets what was recorded before a symbol was last sold out (`TotalPnlDropsClosed`,
  `SaleForgotten`); the trade history keeps it.
- A pass over the registry adopts an agent without a recorded fingerprint as it is, and changes only its shadow mode: it
  keeps its own strategy and schedule, whatever the registry says (`PassConfigures`).
- Expectancy leaves out rows marked flat, whatever their result (`ExpectancyIsMean`).
- If a window fits, the window loop runs for ever on a step of zero, and on a negative step until dates overflow
  (`LoopEndsIff`).

## Model

| member | source | states |
|---|---|---|
| `ConsensusVotes.ElevatesIsConsensus` | trading/agents/consensus.py:443-456 | on every history, whatever its timestamps: the votes in hand when a vote arrives are exactly each agent's last vote since the key's last consensus that no arrival since has pushed out of its window, and the arrival is elevated exactly when that set agrees |
| `ConsensusVotes.PendingIsStanding` | trading/agents/consensus.py:422-457 | on every history the pending dict of a key is, as a bag, that function of the key's whole history: a cache of it |
| `ConsensusVotes.PendingIsRecentIff` | trading/agents/consensus.py:446-450 | the pending dict is each agent's last vote since the last consensus inside the window of the newest arrival if and only if no such vote had been pushed out by an arrival in between |
| `ConsensusVotes.OrderedIsRecent` | trading/agents/consensus.py:443-457 | which is so whenever timestamps never go back; then consensus, too, is decided on the window of the newest arrival |
| `ConsensusVotes.LateClockLosesVote` | trading/agents/consensus.py:446-450 | a concrete history whose clock goes back and on which the two differ |
| `ConsensusVotes.InHandCount` | trading/agents/consensus.py:443-452 | an arriving vote replaces its agent's pending vote and expels exactly the expired ones |
| `ConsensusVotes.AgreedIgnoresOrder` | trading/agents/consensus.py:459-495 | the decision depends on which votes are in hand, never on the order the dict or the query gives them |
| `ConsensusVotes.RulePlainly` | trading/agents/consensus.py:380-495 | the rule in plain terms: too few votes never agree; without a weight threshold the regime's own number, or the general one, is asked for; with one the mean weight must reach it as well, and in a unanimous regime that alone decides |
| `ConsensusVotes.UnanimousDemandsNoMore` | trading/agents/consensus.py:477-492 | a regime marked unanimous never demands more than an unmarked one with the same threshold: an unmarked one agrees exactly when the unanimous one does and the count reaches the threshold |
| `ConsensusVotes.LegacyConfigIsBasic` | trading/agents/consensus.py:494-495 | configured with raw counts the weighted router decides like the basic one on all votes if and only if max(min_agents, 1) does not exceed the threshold |
| `ConsensusVotes.VotesNotReused` | trading/agents/consensus.py:452-455 | every arrival is consumed by at most one elevation: consumed votes plus pending votes never exceed arrivals, under any clock |
| `ConsensusVotes.BasicElevationsBounded` | trading/agents/router.py:1562-1604 | elevations times threshold plus pending votes on a key is at most the number of arrivals on the key |
| `ConsensusRuns.MemoryPerKey` | trading/agents/consensus.py:443-450 | keys do not disturb each other: what is pending on a key is a function of its own arrivals |
| `ConsensusRuns.StoredVotesCount` | trading/agents/consensus.py:392-415 | what the table returns for an arriving vote, in terms of what is pending in memory: the live votes of the key (without the agent's own where rows are replaced) and the new one |
| `ConsensusRuns.MirrorsStep` | trading/agents/consensus.py:392-457 | one arrival keeps table and dict in step on every key although the clean-up is global, and both forms decide alike |
| `ConsensusRuns.StoreDecidesLikeMemory` | trading/agents/consensus.py:392-457 | over any run with ordered timestamps in which no agent repeats a live vote, the append log and the dict elevate the same arrivals |
| `ConsensusRuns.ElevatedIsConsensus` | trading/agents/consensus.py:443-456 | on every run over many keys, under any clock, memory elevates an arrival exactly on a consensus of its key's history |
| `ConsensusLog.RowsRemain` | trading/agents/consensus.py:181-193 | on every run, under any clock and for either table, the rows of a key are its votes since its latest consensus that no later arrival, on any key, has swept away, and with one row per agent that the agent has not replaced |
| `ConsensusLog.StoredElevatesIff` | trading/agents/consensus.py:392-420 | and the table elevates an arrival exactly when those of them in its window agree |
| `ConsensusLog.RunsAlikeIff` | trading/agents/consensus.py:392-457 | for any run, clock, rule and table: both forms elevate the same arrivals if and only if at every arrival the rows that remain since memory's latest consensus agree exactly when its standing votes do |
| `ConsensusRepeats.AppendLogCountsRepeats` | trading/agents/consensus.py:134-146 | at any arrival of any ordered run the append log counts and weighs the superseded votes (live, but replaced by their agent) since its latest consensus on top of the standing ones |
| `ConsensusRepeats.OrderedRunsAlikeIff` | trading/agents/consensus.py:404-495 | over any ordered run, under either rule and with weights: both forms elevate the same arrivals if and only if at none of them the number and the weight of the superseded votes since memory's latest consensus change the decision |
| `ConsensusRepeats.AppendLogDecidesAlikeIff` | trading/agents/consensus.py:404-495 | where votes are counted and not weighed: if and only if at no arrival the standing votes are fewer than needed and the superseded ones make up the number |
| `ConsensusRepeats.OneAgentElevatesAlone` | trading/agents/consensus.py:404-457 | a concrete run of the weighted router, two votes of one agent, that the log elevates and memory does not |
| `ConsensusRepeats.RepeatCountsOn` | trading/agents/consensus.py:404-457 | and one, votes of a, a and b, where the arrival that makes the difference repeats nothing |
| `ConsensusRuns.ReplacingStoreDecidesLikeMemory` | trading/storage/consensus.py:13-28 | with one row per (symbol, side, agent), replaced on insert, stored and in-memory routing elevate the same arrivals on every ordered run |
| `ConsensusWeights.BetterWeighsNoLess` | trading/agents/consensus.py:234-276 | with non-negative blend weights, more confidence, a better Sharpe ratio and a better rating never weigh less, whatever the source of weight and across tiers |
| `ConsensusWeights.WeightBySource` | trading/agents/consensus.py:242-255 | equal votes weigh 1, unknown agents and confidence weigh by the confidence and 0.01 at least, and a Sharpe ratio from -2 to 4 is spread over the unit interval and clamped outside |
| `ConsensusWeights.WeightByRating` | trading/agents/consensus.py:224-260 | a rating is spread from 800 to 2200 and multiplied by its tier |
| `ConsensusWeights.BlendedWeight` | trading/agents/consensus.py:262-274 | concrete composite weights, each part alone and all three together |
| `ConsensusWeights.SilentIffBottomTier` | trading/agents/consensus.py:224-276 | a vote weighs nothing exactly when weight comes from the rating and the agent is rated below 1000; weights from a profile stay within [0, 1.5] |
| `ConsensusRouters.EnhancedConsensusRouter.constructor` | trading/agents/consensus.py:307-320 | a new router has no history |
| `ConsensusRouters.EnhancedConsensusRouter.Route` | trading/agents/consensus.py:322-457 | one call of route: what is passed through unchanged; the vote that joins the history, and its weight; the one message to the target, at AUTO_EXECUTE on a consensus of the recorded history and otherwise at its own level, in memory and stored, under any clock; both the same on ordered runs where nobody repeats a live vote; and the pending dict on every key |
| `ConsensusRouters.ConsensusRouter.Route` | trading/agents/router.py:1512-1604 | one call of the basic router: sent at AUTO_EXECUTE on a consensus of the recorded history and otherwise at its own level, in memory and stored, under any clock; both the same on ordered runs; and votes are not reused on any key |
| `ConsensusRouters.PendingEverywhere` | trading/agents/consensus.py:422-457 | the cache property for every key of the pending map at once |
| `ConsensusRouters.NotReusedEverywhere` | trading/agents/router.py:1562-1604 | the bound on elevations for every key at once |
| `Execution.OpportunityRouter.Finalize` | trading/agents/router.py:149-173 | shadow mode records and ends; live mode rejects and ends unless the decision is ALLOWED |
| `Execution.OpportunityRouter.TryExecute` | trading/agents/router.py:603-1132 | an attempt leaves exactly the effects of the first gate that stops it, or of the order it leads to: one record in shadow mode, one status and at most one order in live mode; and an order is placed if and only if the attempt is live and every condition on the answers holds |
| `Execution.OpportunityRouter.AskSystemGates` | trading/agents/router.py:609-702 | health, broker, risk-engine and missing-trade gates, in order; a shadow-only strategy is rehearsed even by a live attempt |
| `Execution.OpportunityRouter.AskTradeGates` | trading/agents/router.py:704-817 | account, quantity, quote, balance and calibration gates, in order, and the account filled in |
| `Execution.OpportunityRouter.SizeTrade` | trading/agents/router.py:819-1005 | sizing, calibration, throttle and partial exit: the gates that stop there and the quantity the risk engine is shown |
| `Execution.OpportunityRouter.AskRiskAndOrder` | trading/agents/router.py:1007-1132 | the risk gates, the adjusted quantity, and the record or the order |
| `Execution.JudgeByPhases` | trading/agents/router.py:603-1132 | the verdict of all gates is that of the first phase that stops |
| `Execution.JudgePlainly` | trading/agents/router.py:603-1066 | every gate counts, in its order: the decision and the quantity recorded are those of the first condition that fails, and with none that fails ALLOWED with the adjusted quantity or the one shown to the risk engine |
| `Execution.AttemptPlainly` | trading/agents/router.py:603-1132 | an order exactly if the attempt is live and every condition holds (health, broker, risk engine, trade, account, quantity, quote, balance, calibration, positive sizes, risk passed); a live attempt that fails one rejects, except that of a shadow-only strategy, which is recorded; a rehearsal records the decision and its quantity |
| `Execution.CalibratedPlainly` | trading/agents/router.py:868-898 | a recommendation scales an entry to a whole number of units, one at least; exits keep theirs |
| `Execution.ThrottledPlainly` | trading/agents/router.py:931-957 | a throttled strategy enters with the whole part of its share |
| `Execution.ExitPlainly` | trading/agents/router.py:988-1005 | a partial exit takes its fraction of the position, rounded to the nearest unit and from halfway to the even one |
| `Execution.StopsAreNotAllowed` | trading/agents/router.py:603-1066 | no gate stops an attempt with the decision ALLOWED |
| `Execution.RehearseThenTrade` | trading/agents/router.py:603-1132 | shadow mode is a faithful dry run: for any suggested trade or none, on the same answers it orders nothing, touches no status and writes one record, which says ALLOWED with quantity q exactly when the live attempt places an order for q |
| `Execution.AllowedQuantityPositive` | trading/agents/router.py:988-1005 | an allowed quantity fails to be positive exactly when a partial exit replaced it with half a unit or less and the risk engine did not adjust it |
| `Execution.FullExitIsPositive` | trading/agents/router.py:988-1066 | with an exit fraction of 1 an allowed quantity is positive |
| `Execution.PartialExitOfNothing` | trading/agents/router.py:1001-1003 | a concrete partial exit that is allowed with quantity 0 |
| `Execution.FullExitKeepsQuantity` | trading/agents/router.py:819-1066 | nothing but the risk engine resizes a full exit |
| `Execution.EntryNeverGrows` | trading/agents/router.py:868-986 | calibration and throttle never raise the size of an entry, except that calibration keeps one unit |
| `Execution.KellyIsCapped` | trading/learning/confidence_calibration.py:223-238 | the composed fraction never exceeds the configured maximum and the cap only lowers the multiplier |
| `Execution.MultiplierPlainly` | trading/learning/confidence_calibration.py:223-238 | and it is the smaller of the recommended fraction and that maximum |
| `Portfolios.SimulatedPortfolio.OpenPosition` | trading/backtesting/engine.py:69-122 | the whole new state after a fill, with the commission of a SELL credited |
| `Portfolios.SimulatedPortfolio.ClosePosition` | trading/backtesting/engine.py:124-177 | the whole new state after a close: clipped quantity, cash, the one trade settled, the position removed at zero |
| `Portfolios.SimulatedPortfolio.FindMatch` | trading/backtesting/engine.py:145-150 | the latest open trade record of the other side, if any |
| `Portfolios.SimulatedPortfolio.SettleTrade` | trading/backtesting/engine.py:152-170 | the recorded results move by exactly the result of the close on the entry price of the matched record, or not at all without one or at an entry price of zero |
| `Portfolios.SettlesOne` | trading/backtesting/engine.py:145-170 | at most one record changes, the latest open one of the other side, and only its exit |
| `Portfolios.SettledPlainly` | trading/backtesting/engine.py:152-170 | and it shows the time and price of the close and the result on its own entry price less the commission |
| `Portfolios.RecordsGainIff` | trading/backtesting/engine.py:138-170 | a close records the gain on average cost less the commission if and only if the matched record was entered at the average cost or nothing was closed; without a record to settle, if and only if that is nothing |
| `Portfolios.TwoBuysOneSale` | trading/backtesting/engine.py:145-170 | two buys and one sale that gain 30 and record 20, and leave the first trade open |
| `Portfolios.SimulatedPortfolio.RecordEquity` | trading/backtesting/engine.py:51-67 | an equity point of cash and the positions at current price, or at cost where there is none |
| `Portfolios.LastMatch` | trading/backtesting/engine.py:145-150 | the match is open, of the other side, and no later record is |
| `Portfolios.OpenHeld` | trading/backtesting/engine.py:88-107 | a fill moves its ticker's quantity by its signed size, no other position, and no position is empty |
| `Portfolios.OpenLedger` | trading/backtesting/engine.py:83-107 | cash plus positions at average cost moves by the commission alone: charged on a BUY, credited on a SELL |
| `Portfolios.CloseHeld` | trading/backtesting/engine.py:138-175 | an order for the whole size removes the position, or doubles it when its side is wrong |
| `Portfolios.CloseLedger` | trading/backtesting/engine.py:138-175 | cash plus positions at average cost moves by the gain realised on average cost less the commission |
| `Replays.HistoricalReplay.Advance` | trading/backtesting/replay.py:70-81 | all tickers move one bar together and their bars are returned, or one is exhausted and nothing moves |
| `Replays.HistoricalReplay.Seek` | trading/backtesting/replay.py:83-86 | each ticker goes to the index or to its own end |
| `Replays.OrderedSorts` | trading/backtesting/replay.py:100-106 | the cursor keeps the tickers in their order and all their bars, and puts the bars of each in order of time |
| `Backtests.OrderedInputs` | trading/backtesting/replay.py:100-106 | bars that are supplied sorted are left as they are |
| `Backtests.FillOpportunities` | trading/backtesting/engine.py:266-320 | the opportunities of one agent: skipped, or filled at the slipped close after closing a crossed position |
| `Backtests.SlippedPlainly` | trading/backtesting/engine.py:392-400 | a fill is never better than the close: a buyer pays the slippage on top and a seller gives it up |
| `Backtests.FilledPlainly` | trading/backtesting/engine.py:276-320 | what a filled opportunity appends: a trade of its own side and size at the slipped close of its ticker's bar, with the commission on that size and price, tracked at the same price |
| `Backtests.ScanAgents` | trading/backtesting/engine.py:254-264 | agents in turn; a failed scan is skipped |
| `Backtests.PlayNext` | trading/backtesting/engine.py:233-258 | one turn of the loop: what agents see at bar i is the bar column and the past up to i |
| `Backtests.PlayBars` | trading/backtesting/engine.py:233-344 | the loop plays exactly length minus start index bars, each on the state the one before left |
| `Backtests.CloseRemaining` | trading/backtesting/engine.py:346-362 | every open-trade entry is closed in turn at its entry price, free of commission |
| `Backtests.FinalClosePlainly` | trading/backtesting/engine.py:350-362 | a final close is a whole-size order of the other side at the entry price, free of commission |
| `Backtests.Run` | trading/backtesting/engine.py:199-380 | a run fails exactly without bars, and otherwise returns the final portfolio of the whole run |
| `Backtests.Causality` | trading/backtesting/engine.py:213-340 | no look-ahead: with sorted inputs, two histories that agree on the first bars give equal states after as many steps, for any agents that answer from what they were shown |
| `LookAhead.NoFutureIffTimely` | trading/backtesting/engine.py:233-251 | the agents of a run from a start index are shown nothing later than the time of the bar, at any bar, if and only if every bar supplied is no later than the first ticker's sorted bar at its place (at the start index for those before it) |
| `LookAhead.ShownInRun` | trading/backtesting/engine.py:246-251 | those views are the ones the run shows |
| `LookAhead.AlignedShowsPast` | trading/backtesting/engine.py:539-547 | sorted bars with the same times for every ticker meet that condition from any start index |
| `LookAhead.SortedIsNotEnough` | trading/backtesting/replay.py:70-81 | sorted bars alone do not: two tickers with different times, where the first bar already shows the future |
| `LookAhead.OneTickerIffSorted` | trading/backtesting/engine.py:539-547 | with one ticker and no warm-up it is met if and only if the bars are supplied sorted |
| `LookAhead.WarmedUpShowsPast` | trading/backtesting/engine.py:219-220 | with one ticker and a warm-up to its last bar it is met in any order |
| `BacktestLedger.RunBalances` | trading/backtesting/engine.py:213-340 | in every state the loop reaches, quantities are the signed sums of the fills, cash plus cost has moved only by realised gain and booked commissions, and a ticker is held exactly when it has open-trade entries, on the side of the last |
| `BacktestLedger.FilledSane` | trading/backtesting/engine.py:266-320 | one opportunity of positive size keeps all of this |
| `BacktestLedger.CloseOutEmpties` | trading/backtesting/engine.py:346-362 | the final closes keep the books and leave nothing held, however many agents traded a ticker |
| `BacktestLedger.RunEndsFlat` | trading/backtesting/engine.py:199-380 | a whole run ends without positions and with cash equal to the initial capital plus realised gains less booked commissions |
| `Tuning.GeneticOptimize` | trading/agents/tuning.py:272-364 | whatever the draws: it fails exactly without a generation, an individual or an elite; otherwise every individual ever created, those bred after the last generation included, is between the ends of its bounds, in whichever order they are given, every generation has the population size, the best score never falls, the history holds the highest Sharpe ratio of each generation, and the result is reported with its own ratio, which no individual evaluated exceeds; a backtest that raised or gave none counts as -999 |
| `Tuning.Generation` | trading/agents/tuning.py:331-357 | one generation: its highest Sharpe ratio, and the next population opening with the best of this one, as many as are elite |
| `Tuning.Rank` | trading/agents/tuning.py:331-341 | individuals scored by their Sharpe ratio, or -999 where the backtest raised or gave none, highest first |
| `Tuning.Breed` | trading/agents/tuning.py:348-357 | elites first, then in-bounds children up to the population size |
| `Tuning.Mutate` | trading/agents/tuning.py:318-325 | mutation stays in bounds |
| `Tuning.Crossover` | trading/agents/tuning.py:309-316 | every gene comes from a parent |
| `Tuning.RandomIndividual` | trading/agents/tuning.py:303-307 | a random individual is between the ends of its bounds |
| `Tuning.ProductMembers` | trading/agents/tuning.py:234-236 | the grid is exactly the set of choices of one value per parameter |
| `Tuning.GridSearch` | trading/agents/tuning.py:215-270 | exactly one row per choice whose backtest did not raise, with its score, best first |
| `PredictionMarkets.Run` | trading/backtest/prediction_market.py:51-82 | the loop over snapshots computes the closed trades of the book |
| `PredictionMarkets.Enter` | trading/backtest/prediction_market.py:72-82 | the last order for the snapshot's own ticker sets the position |
| `PredictionMarkets.WinnerIsLast` | trading/backtest/prediction_market.py:72-82 | the entry on a market is the last of the strategy's orders for its own ticker, if there is one |
| `PredictionMarkets.NextPlainly` | trading/backtest/prediction_market.py:56-82 | a resolution closes the position of its ticker at 100 or 0 cents a contract and records the trade; an order on a market without a position opens one at its price with the fee on its size; nothing else changes the book |
| `PredictionMarkets.Projection` | trading/backtest/prediction_market.py:51-82 | the closed trades and the position of a ticker in the full run are those of the run on its own snapshots |
| `PredictionMarkets.OpenIsEntered` | trading/backtest/prediction_market.py:69-82 | the open position of a ticker is the entry of the first unresolved snapshot with an order since it last resolved |
| `PredictionMarkets.PnlIsSumOfRounds` | trading/backtest/prediction_market.py:56-67 | total P&L is the sum over all rounds of (settlement - entry - fee) times size, with rounds defined on the history alone |
| `PredictionMarkets.NeverOverlap` | trading/backtest/prediction_market.py:51-82 | with ordered timestamps the trades of a ticker never overlap |
| `BookWalk.EstimateFill` | trading/broker/paper.py:206-231 | the walk, its early stop and its penalty for the remainder; no estimate exactly without levels or quantity |
| `BookWalk.WalkIsCheapest` | trading/broker/paper.py:214-224 | on ascending asks no feasible allocation of the same quantity is cheaper than the walk |
| `BookWalk.WalkIsFeasible` | trading/broker/paper.py:214-219 | with enough depth the walk is itself such an allocation |
| `BookWalk.WalkFetchesMost` | trading/broker/paper.py:214-219 | on descending bids no allocation of the same quantity fetches more than the walk |
| `BookWalk.AsksRise` | trading/broker/paper.py:205-224 | ascending non-negative asks with non-negative slippage satisfy the premise of these lemmas |
| `BookWalk.AverageRises` | trading/broker/paper.py:214-226 | the average price never falls as quantity grows (cross-multiplied) |
| `BookWalk.FillPriceRises` | trading/broker/paper.py:214-226 | the fill price never falls as quantity grows and lies between the best ask and last price times (1 + slippage), even when depth runs out |
| `BookWalk.BeyondTheBook` | trading/broker/paper.py:221-224 | every unit beyond the book is priced at the penalty price, on either side |
| `BookWalk.OversellingPays` | trading/broker/paper.py:221-224 | a sale beyond the bids fetches a better average than one that exhausts them if and only if the penalty price is above the average of the book |
| `PaperTrading.PaperTrader.constructor` | scripts/paper_trading.py:73-86 | a new account is sound |
| `PaperTrading.PaperTrader.PlaceOrder` | scripts/paper_trading.py:92-115 | the whole new account after an order; orders of positive price and quantity keep it sound, and results stay traced through it |
| `PaperTrading.PaperTrader.FillOrder` | scripts/paper_trading.py:117-196 | filled exactly when cash or shares suffice, otherwise cancelled with nothing changed |
| `PaperTrading.FillsPlainly` | scripts/paper_trading.py:117-163 | a buy is filled exactly with cash for its price and a commission of a tenth of a percent, a sale exactly with the shares |
| `PaperTrading.BuyPlainly` | scripts/paper_trading.py:128-153 | a buy opens a position at its price or moves the entry price of one to the average, and no other position changes |
| `PaperTrading.SalePlainly` | scripts/paper_trading.py:155-194 | a sale takes in proceeds less commission, records its result against the entry price, counts as won exactly if that is positive, and removes a position sold out |
| `PaperTrading.PricesPlainly` | scripts/paper_trading.py:198-204 | a held position is marked at the last price given for its symbol, a higher one gains, and nothing else changes |
| `PaperTrading.PaperTrader.UpdatePrices` | scripts/paper_trading.py:198-214 | marks positions, keeps the account sound, and reports a total P&L that lacks the results of positions sold out |
| `PaperTrading.PlacedSound` | scripts/paper_trading.py:92-196 | cash, shares at cost and commissions of filled buys equal initial capital plus recorded results; cash is not negative, held quantities are positive, wins plus losses equal the trades recorded |
| `PaperTrading.PricesKeepHoldings` | scripts/paper_trading.py:198-204 | new prices move neither quantities, costs nor realised results |
| `PaperTrading.SummaryReconciles` | scripts/paper_trading.py:216-225 | total value is initial capital plus recorded results plus paper gain less commissions of filled buys |
| `PaperTrading.PlacedTraced` | scripts/paper_trading.py:165-194 | a position shows the results recorded since its symbol was last sold out; an order moves to the gone results exactly those of the position it sells out |
| `PaperTrading.SaleForgotten` | scripts/paper_trading.py:165-209 | a share bought and sold out records 9.89, of which total_pnl shows nothing |
| `PaperTrading.TotalPnlDropsClosed` | scripts/paper_trading.py:175-209 | total_pnl is recorded plus unrealised results less those recorded, in the trade history, before their symbol was last sold out; it is complete if and only if these cancel out |
| `WalkForward.GenerateWindows` | trading/backtesting/walk_forward.py:95-121 | exactly floor(slack / step) + 1 windows, none if the slack is negative, one step apart and inside the range |
| `WalkForward.LoopEndsIff` | trading/backtesting/walk_forward.py:109-119 | some window no longer fits, which ends the loop, if and only if the step is positive or the first window does not fit |
| `WalkForward.FitsIffCounted` | trading/backtesting/walk_forward.py:109-119 | a window fits exactly when it is counted |
| `WalkForward.WindowPlainly` | trading/backtesting/walk_forward.py:105-119 | where window k lies, in seconds |
| `WalkForward.TrainBeforeTest` | trading/backtesting/walk_forward.py:206-210 | every training sample of a window is strictly earlier than every test sample of it |
| `WalkForward.Split` | trading/backtesting/walk_forward.py:202-210 | the samples of the two halves of a window, in order |
| `WalkForward.ResultPlainly` | trading/backtesting/walk_forward.py:206-224 | a reported window is scored on the returns inside its training period and those inside its test period, in that order, and judged on these scores |
| `WalkForward.ResultsPlainly` | trading/backtesting/walk_forward.py:201-224 | a window is reported exactly with two training samples and one test sample at least |
| `WalkForward.OverfitPlainly` | trading/backtesting/walk_forward.py:147-154 | overfit means a training score above the threshold times a positive test score, or a positive one that tests at or below zero |
| `WalkForward.TestedAtMostOnce` | trading/backtesting/walk_forward.py:109-119 | with a step of at least a test period no time lies in two test windows |
| `WalkForward.TestedExactlyOnce` | trading/backtesting/walk_forward.py:394-407 | with step equal to test every time from the first test start to the last test end lies in exactly one test window |
| `WalkForward.DisjointIffStepCovers` | trading/backtesting/walk_forward.py:109-119 | test windows are disjoint if and only if the step covers a test period |
| `WalkForward.TestSamplesAtMostAll` | trading/backtesting/walk_forward.py:201-210 | then the test samples of all windows together are at most the samples |
| `WalkForward.Run` | trading/backtesting/walk_forward.py:169-261 | every window with two training samples and one test sample is reported, in order, with its own samples scored and judged; a length mismatch is an error; no sample is counted twice when the step covers the test period |
| `WalkForward.TestTradesAtMostAll` | trading/backtesting/walk_forward.py:201-234 | the total of test trades is at most the number of samples when the step covers the test period |
| `WalkForward.RunMultiSplit` | trading/backtesting/walk_forward.py:374-419 | under each split, and nothing else, the analysis by an engine that steps by the split's test period; none counts a sample twice |
| `Registry.AgentRunner.Reconcile` | trading/agents/runner.py:550-712 | one pass: hot stops in any order, then the entries in order |
| `Registry.AgentRunner.ReconcileEntry` | trading/agents/runner.py:600-630 | one entry: warm restart, synchronised shadow mode, or hot start |
| `Registry.AgentRunner.InstantiateAgent` | trading/agents/runner.py:632-712 | unknown strategy, missing cron, declined by the factory, or registered and started |
| `Registry.AgentRunner.StartAgent` | trading/agents/runner.py:210-229 | starting a running agent does nothing |
| `Registry.AgentRunner.StopAgent` | trading/agents/runner.py:231-260 | stopping an unknown agent is an error |
| `Registry.StepSettles` | trading/agents/runner.py:586-712 | the step of an entry settles it |
| `Registry.StepLeavesOthers` | trading/agents/runner.py:586-712 | and leaves every other name alone |
| `Registry.PassConverges` | trading/agents/runner.py:550-712 | with unique names, after one pass every managed agent is in the registry, the registry's fingerprint is on record for it and its shadow mode is set, and every entry an agent can be built for has one |
| `Registry.PassConfigures` | trading/agents/runner.py:600-712 | the configuration each agent ends with: the registry's if it is built anew, and otherwise its own with the shadow mode set; so it runs as registered if and only if it is built anew or already did |
| `Registry.PassRuns` | trading/agents/runner.py:573-712 | what a pass starts and stops, in order: one stop for each agent not in the registry, and entry by entry one stop for an agent with another fingerprint and one start for one built anew on a continuous or cron schedule; and which agents run afterwards |
| `Registry.RunsPlainly` | trading/agents/runner.py:602-708 | a startable entry that is new or changed ends up running if and only if its schedule is continuous or cron, and an agent that is kept is left as it was |
| `Registry.StartablePlainly` | trading/agents/runner.py:632-698 | an agent can be built exactly if the strategy is known, a cron schedule comes with a cron expression, and the factory builds from the registry's configuration |
| `Registry.SecondPassIsIdle` | trading/agents/runner.py:550-712 | a second pass over the same registry starts nothing, stops nothing and changes nothing |
| `Registry.IdleIff` | trading/agents/runner.py:550-712 | a pass changes nothing if and only if every managed agent has an entry, every entry agrees with the runner or cannot be started, and every agent has the shadow mode of the last entry of its name; names may repeat |
| `Registry.RepeatedNameNeverIdle` | trading/agents/runner.py:600-616 | hypothetical, since names are unique in the registry table: two entries of one name with different fingerprints, one of them startable, leave no state in which a pass is idle |
| `Scans.AgentMaxDrawdown` | trading/agents/analytics.py:64-78 | the one-pass loop returns the maximum over i <= j of prefix i minus prefix j |
| `Scans.ComputeMetrics` | trading/backtest/metrics.py:24-64 | so does the loop in cents, whatever the starting capital; total, hits and count |
| `Scorecard.MaxDrawdown` | trading/analytics/strategy_scorecard.py:239-249 | and the loop of the scorecard |
| `Scans.MaxDrawdownUnique` | trading/agents/analytics.py:64-78 | the three loops therefore agree |
| `Scans.DrawdownExample` | trading/agents/analytics.py:64-78 | a concrete curve and its drawdown |
| `Scans.ComputeStreaks` | trading/agents/analytics.py:107-148 | current and longest runs of losses and of wins in the sequence of decisive trades, oldest first |
| `Scans.SignsOf` | trading/agents/analytics.py:124-141 | that sequence: a newer trade adds a win or a loss at its end, a flat or unreadable one adds nothing |
| `Scorecard.ExpectancyIsMean` | trading/analytics/strategy_scorecard.py:193-219 | expectancy is the mean net result if and only if the rows marked flat cancel out |
| `Scorecard.SignRuleExpectancy` | trading/analytics/strategy_scorecard.py:59-64 | which they do where outcomes follow the sign rule |
| `Scorecard.SortedByExit` | trading/analytics/strategy_scorecard.py:188-188 | the rows are taken in order of exit, the earliest first |
| `Scorecard.SummaryMeaning` | trading/analytics/strategy_scorecard.py:183-271 | counts partition the trades and expectancy is net over count under the sign rule |
| `Scorecard.SummaryIgnoresOrder` | trading/analytics/strategy_scorecard.py:188-219 | nothing in the summary but the drawdown depends on the order of the rows |
| `Scorecard.ComputeSummary` | trading/analytics/strategy_scorecard.py:183-271 | the summary of the rows as supplied, with minus the largest fall of the curve in order of exit |
| `Scorecard.EquityCurve` | trading/analytics/strategy_scorecard.py:274-290 | point k is the sum of the first k+1 results by exit time; first and last point survive down-sampling |
| `Scorecard.DownSample` | trading/analytics/strategy_scorecard.py:284-290 | over the cap exactly cap points at strictly increasing indices, from the first to the last |
| `Scorecard.SampleIndexExact` | trading/analytics/strategy_scorecard.py:286-287 | int(i * step) is the exact quotient |
| `Scorecard.SamplesAdvance` | trading/analytics/strategy_scorecard.py:286-287 | and strictly advances |
| `Scorecard.RollingExpectancy` | trading/analytics/strategy_scorecard.py:293-328 | one point per full window, with the expectancy of exactly its rows; its cumulative values are those of the un-sampled equity curve |
| `Scorecard.RollingIsMean` | trading/analytics/strategy_scorecard.py:293-328 | every rolling value is the mean of its window under the sign rule |
| `Scorecard.GroupBySymbol` | trading/analytics/strategy_scorecard.py:333-335 | each symbol has exactly its own rows in order; counts and results add up to the totals |
| `Scorecard.SymbolBreakdown` | trading/analytics/strategy_scorecard.py:331-370 | exactly the traded symbols, each measured on exactly its own rows; counts and results add up to the totals |
| `Scorecard.SymbolIsMean` | trading/analytics/strategy_scorecard.py:346-358 | per symbol, too, expectancy is the mean net result under the sign rule |
| `ConsensusSim.SimulatorDecidesLikeRouter` | trading/agents/consensus.py:577-635 | on one vote per agent the simulator decides like the live router under a regime if and only if the regime is not unanimous or there is no weight threshold |
| `ConsensusSim.RepeatsInSimulatorIff` | trading/agents/consensus.py:588-635 | on any votes, repeated ones included, the simulator decides like the router on each agent's last vote if and only if their rules agree on the number of agents, one with the weight of all votes and the other with that of the last ones |
| `ConsensusSim.RepeatsDecideLikeRouter` | trading/agents/consensus.py:588-635 | over all votes that is so under a regime if and only if there is no weight threshold |
| `ConsensusSim.GroupsMeaning` | trading/backtesting/consensus_sim.py:483-490 | every opportunity with a trade is in the group of its (ticker, side), in order, and no group is empty |
| `ConsensusSim.GroupByKey` | trading/backtesting/consensus_sim.py:483-490 | the loop builds those groups |
| `ConsensusSim.BallotsPlainly` | trading/backtesting/consensus_sim.py:492-502 | a group is put to the vote exactly if its ticker has a bar, under the regime of its first opportunity, with its size, weight and decision |
| `ConsensusSim.BarCountsTradable` | trading/backtesting/consensus_sim.py:483-500 | every opportunity with a trade on a ticker that has a bar is counted, once, and no other is |
| `ConsensusSim.CountersStep` | trading/backtesting/consensus_sim.py:504-529 | one ballot keeps the counters equal to the sums over all ballots and the running averages equal to the true means |
| `ConsensusSim.RegimesStep` | trading/backtesting/consensus_sim.py:511-529 | and the per-regime counters equal to the sums over the regime's ballots, adding up to the global ones |
| `ConsensusSim.ConsensusMetrics.Tally` | trading/backtesting/consensus_sim.py:504-609 | what one group does to the counters, filtered or elevated |
| `ConsensusSim.ConsensusMetrics.Count` | trading/backtesting/consensus_sim.py:504-609 | one group keeps counters, averages and regimes true to the ballots |
| `ConsensusSim.CountGroups` | trading/backtesting/consensus_sim.py:492-529 | the groups whose ticker has a bar are put to the vote once each, under the regime of their first opportunity |
| `ConsensusSim.CountsReconcile` | trading/backtesting/consensus_sim.py:504-656 | filtered trades plus average votes times consensus trades equal all opportunities, and the consensus rate is a percentage |
| `ConsensusSim.Run` | trading/backtesting/consensus_sim.py:411-656 | all of this holds at the end of every run, and every tradable opportunity has been counted once |

## Left out

- ConsensusRouters.EnhancedConsensusRouter.Route: the note appended to the reasoning, the published event and the confidence kept with a vote, because nothing depends on them; the regime arrives parsed, as a text or nothing.
- ConsensusRouters.ConsensusRouter.Route: time zones and the text form of timestamps in the table, because time is an integer here.
- Execution.OpportunityRouter.TryExecute: exceptions inside gates and from the broker, journal entries, and everything after the order is placed; its body is cut into phases, each a method of its own. Which broker is resolved is an input.
- Execution.RehearseThenTrade: says nothing about collaborators that answer differently in the two runs.
- Portfolios.SimulatedPortfolio.ClosePosition: percentage results, holding time and trade ids.
- Backtests.Run: a warm-up below zero, exceptions raised during a run, a real data bus, indicators served by the bus, commission formulas, logging and replay speed.
- Backtests.Causality: agents that draw random numbers or look outside the data bus.
- Tuning.GeneticOptimize: a backtest function that answers differently for the same individual; the probabilities of mutation and crossover, which no property here depends on.
- Tuning.GridSearch: win rate, drawdown and trade count of a row.
- BookWalk.EstimateFill: the random slippage used when there is no estimate.
- PaperTrading.PaperTrader.PlaceOrder: a buy that brings a position to quantity 0 raises a division error in the source and gives average price 0 here; it needs a negative quantity. Position timestamps are left out.
- WalkForward.Run: averages, returns, drawdown and efficiency of windows; Sharpe ratios are an input. A loop that does not end (a step that is not positive while a window fits).
- WalkForward.RunMultiSplit: splits whose windows do not end; results are keyed by the split, not by its name.
- Registry.AgentRunner.Reconcile: failures of the store, of factories and of set-up, draining of tasks, and the action level derived from trust.
- Scans.ComputeStreaks: reading a result out of a stored order, which arrives as a number or nothing.
- Scans.ComputeMetrics: hit rate as a quotient and the Sharpe ratio.
- Scorecard.ComputeSummary: gross results, profit factor, best and worst trade, and holding times.
- Scorecard.EquityCurve: a cap of zero or less, for which the source fails or keeps one point.
- Scorecard.RollingExpectancy: a window of zero or less.
- Scorecard.SymbolBreakdown: the sorting of the result by symbol.
- ConsensusSim.Run: the portfolio and trades of the simulator, which repeat those of the backtest engine, and the weights behind the votes.
- Rounding of decimals and floats: exact reals instead.
- Sharpe and Sortino ratios, annualisation, Monte Carlo statistics: no exact claim.
- Order states other than those of market orders on paper: limit and stop orders are stored and never filled.
- Boosts by the meta agent, opportunity scoring, alerts, the web service, databases, notifiers and prompts: plumbing or constant tables.
