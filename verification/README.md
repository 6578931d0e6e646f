# Verified model of the crypto trader's accounting and control core

The trader calls itself ledger first, idempotent and recoverable. This project models the code that has to earn
those words and proves what it does, for every input and every run:

* **Trade accounting.** A fill becomes a balanced double-entry journal (`Journal`), journals are replayed into cash,
  positions, cost basis and realised PnL (`Projection`, `Totals`, `Conservation`), the engine settles every fill into
  that ledger (`Settlement`, `SettledRows`), and the asset account follows the cost basis (`AssetAccount`). Separately, raw fills are
  replayed into flat-to-flat cycles (`Cycles`), priced from weighted averages (`Episodes`) and stored in the learning
  table (`EpisodeStore`, `Recorded`). These are two independent algorithms for the same money. `Agreement` and
  `Settlement` prove that they agree, and `Repricing` and `LongOnly` say exactly when.
* **Intent to position.** `Intents` follows trading intents through the mapping to orders and fills, and `RiskGate`
  holds the pre-trade gates. Together they discharge the hypotheses of the accounting theorems from the code.
* **Control plane.** `CircuitBreaker` models the LLM gateway's `invoke` as interleaved steps, `RateLimiting`,
  `Precision` and `Authority` the final order gate with its token bucket and its price and quantity grids, and
  `TradeReview` the graded trade review with its human approval gate.
* **Factor readiness.** `FactorCapture` and `FactorProfiles` follow a factor from its calculator through the printed
  warning to the two independent readiness decisions.
* **One-pass numerics.** `Money` (decimal text), `Drawdown` (one pass against all pairs) and `MarketWindow` (bounded
  window against full history).

Classes that update their fields are Dafny classes whose methods are proved against specification functions. The laws
are lemmas about those functions. Amounts are exact reals, tables are maps or sequences, and clocks, ids and outside
verdicts are parameters. `Wrappers`, `Numbers` and `Fills` hold the shared types.

## What the proofs found

Where the code does not do what it sets out to do, the code is kept as it is and the exact condition is proved.

* The engine gives every settlement a new event id, and the ledger looks a transaction up by *all* supplied ids. So a
  fill that is settled again is booked again (`FreshEventIdsAlwaysAppend`). A fill is booked once exactly when its
  repeats repeat an event id or omit it (`SettledOnceIffEventIdsRepeat`).
* The replayed ledger and the episodes agree at every price exactly for long-only streams without a reduce-only buy
  (`AgreementIffNoReduceOnlyBuys`): the cycle builder counts such a buy as an exit, the ledger as a purchase.
* An exit that overshoots leaves a cycle with unequal legs (`EntryEqualsExitIffProper`), and the average-price formula is
  the cash at every price exactly for cycles without one (`GrossIsCashIffProper`).
* A position whose average price is zero makes the engine release cost at the fill price
  (`EngineReleaseIsReplayReleaseIff`).
* The breaker is asked once per invocation and not before a retry. A configuration can let a call out while the circuit
  is open exactly when some route leads to a provider with retries (`NeverCallsOpenIffNoRetries`); within one run it
  happens exactly when a sleeper wakes under an open breaker (`NoOpenCallsIffResumesClosed`), and never while the
  invocations of a provider do not overlap (`SoloRunsNeverCallOpen`).
* Rounding to the tick uses only the exponent of the tick, so it yields multiples of the tick exactly when the tick is a
  power of ten (`RoundsToTheTickIff`).
* The decimal printer raises on 99999999999999999999.999999999, a number of twenty integer digits, because rounding to
  eight places carries into a 29th digit. The exact bound is `FormatRaisesIff`.
* One-pass fractional drawdown is the worst fall as long as no period loses more than everything
  (`PeakDrawdownIsWorst`). At the first period that does, it is so only after total ruin or before any movement
  (`FirstLossBeyondAllIff`).
* The exponential average over the bounded window is the one over the full history exactly while no bar has left the
  window, or over a single bar (`EmaSeesFullHistoryIff`); the simple one always is (`SmaSeesFullHistory`).

## Model

| member | source | states |
|---|---|---|
| `Cycles.BuildCycles` | src/crypto_trader/governance/trade_episodes.py:180-210 | the replay loop over `Cycle` objects returns, as values, exactly the cycles of the recursive replay, the open one at the end left out |
| `Cycles.CyclesArePrefixStable` | src/crypto_trader/governance/trade_episodes.py:180-210 | later fills never change, reorder or remove a cycle already reported |
| `Cycles.CyclesAreAdditiveAtFlat` | src/crypto_trader/governance/trade_episodes.py:192-210 | if a stream ends with nothing open, what follows builds its cycles as if it stood alone |
| `Cycles.ReplayIsSegmentation` | src/crypto_trader/governance/trade_episodes.py:169-210 | the running replay equals the independent definition: cut the stream at the first point where the signed quantity is zero again, skip reduce-only fills while flat |
| `Cycles.BlocksPartitionTheFills` | src/crypto_trader/governance/trade_episodes.py:180-210 | the cut loses, repeats and reorders nothing; no stretch is flat before its end, and only the last may stay open |
| `Cycles.CyclesAreTheFlatStretches` | src/crypto_trader/governance/trade_episodes.py:180-210 | with positive quantities the reported cycles are exactly the stretches that come back to zero, so each fill is in one cycle, was ignored as reduce-only while flat, or is in the open tail |
| `Cycles.LegsPartition` | src/crypto_trader/governance/trade_episodes.py:198-206 | the entry and exit fills of a cycle are together exactly the fills of its stretch |
| `Episodes.EntryEqualsExitIffProper` | src/crypto_trader/governance/trade_episodes.py:268-291 | a completed cycle enters and exits the same quantity if and only if no reducing fill overshoots and every reduce-only fill is on the reducing side; otherwise it exits strictly more |
| `Episodes.GrossIsNetCash` | src/crypto_trader/governance/trade_episodes.py:213-218 | for such a cycle, long or short, average exit less average entry times quantity is the signed cash its fills brought in |
| `Episodes.OvershootMispricesTheCycle` | src/crypto_trader/governance/trade_episodes.py:268-291 | a concrete overshooting cycle whose gross PnL is not its cash |
| `Episodes.ColumnsOfCycle` | src/crypto_trader/governance/trade_episodes.py:268-329 | every column of the episode of a complete cycle, from its fills: each price times its leg quantity is the leg notional, the size is the smaller leg, times are of the first entry and the last exit and the seconds their nonnegative difference, gross is the ledger hit of the earliest known exit order or else price difference times size, fees those of both legs, and the verdict the sign of net |
| `Episodes.PricesTimesQuantities` | src/crypto_trader/governance/trade_episodes.py:213-218 | with positive quantities both legs of a stretch have quantity, and entry and exit price times it are exactly their notionals |
| `Episodes.VerdictFollowsTheCash` | src/crypto_trader/governance/trade_episodes.py:280-292 | a proper stretch without a ledger hit is a WIN, a LOSS or BREAKEVEN as the cash of its fills less their fees is above, below or at zero |
| `Episodes.KeyOfStretch` | src/crypto_trader/governance/trade_episodes.py:268-272 | the key names the symbol, the market of the first fill and every fill of the stretch once, and the direction is LONG exactly when it opens with a buy |
| `Repricing.GrossIsCashIffProper` | src/crypto_trader/governance/trade_episodes.py:213-291 | the exact condition: for every cycle that comes back to zero, long or short, the average-price gross is the cash of its fills at every price if and only if no reducing fill overshoots and every reduce-only fill reduces |
| `Repricing.ImproperMisprices` | src/crypto_trader/governance/trade_episodes.py:213-291 | every improper cycle misses its cash at its own prices, or after its last exit gets dearer by one |
| `Journal.TradeJournalsBalance` | src/crypto_trader/ledger/service.py:46-101 | the journal of any trade balances, for every price, quantity, fee and released cost, so the builder never raises |
| `Journal.TradeMovesAccounts` | src/crypto_trader/ledger/service.py:46-98 | the net movement of every account in the journal of a trade: notional into the asset and out of cash on a buy, released cost out and profit credited on a sell, fee to FEE_EXPENSE, all in the quote currency, nothing else |
| `Journal.LedgerService.FindTransaction` | src/crypto_trader/ledger/service.py:206-216 | finds the first row in which every supplied id matches, and none exactly when each row misses a supplied one or no id is given |
| `Journal.LedgerService.Record` | src/crypto_trader/ledger/service.py:110-203 | returns the stored row if the ids are known, else appends exactly one row that carries every field of the call with its postings numbered from one, else raises and changes nothing |
| `Journal.IdsDecide` | src/crypto_trader/ledger/service.py:125-150 | absent and empty ids never identify; a call with the ids of a row, or one of them alone, is never appended, and a call not appended has each of its ids in the ledger |
| `Journal.LedgerIsFirstOccurrences` | src/crypto_trader/ledger/service.py:110-216 | after any sequential stream of calls the ledger is the first occurrences, in order |
| `Journal.RedeliveryChangesNothing` | src/crypto_trader/ledger/service.py:125-150 | repeating any identified calls of the past, in any order and number, leaves the ledger as it was |
| `Journal.StoredTransactionsBalance` | src/crypto_trader/ledger/service.py:38-43 | debits equal credits in every transaction of every reachable ledger |
| `Journal.WholeLedgerBalances` | src/crypto_trader/ledger/service.py:38-43 | total debits equal total credits over the whole of every reachable ledger |
| `Journal.SettledOnceIffEventIdsRepeat` | src/crypto_trader/ledger/service.py:206-216 | no fill id is booked twice if and only if every repeated fill id comes without an event id or with one it already had |
| `Journal.FreshEventIdsAlwaysAppend` | src/crypto_trader/runtime/engine.py:1003-1010 | with a new event id on every call, every call is appended, whatever its fill id |
| `Projection.ProjectionBuilder.RefreshEquity` | src/crypto_trader/ledger/projections.py:96-99 | equity is the sum of all balances and all cost bases |
| `Projection.ProjectionBuilder.ApplyTrade` | src/crypto_trader/ledger/projections.py:125-159 | the one position of the trade changes as specified; an oversell raises and leaves positions alone |
| `Projection.ProjectionBuilder.ApplyTransaction` | src/crypto_trader/ledger/projections.py:101-123 | applies the postings in sequence order and then the trade or cash transfer; on an oversell the postings stay applied |
| `Projection.ReplayProjections` | src/crypto_trader/ledger/projections.py:182-204 | the loop over the not excluded transactions is the replay function, fault for fault |
| `Projection.ReplayAppend` | src/crypto_trader/ledger/projections.py:182-204 | replaying a longer ledger continues from the projection of its beginning |
| `Projection.PostingOrderIsIrrelevant` | src/crypto_trader/ledger/projections.py:101-112 | any permutation of the postings gives the same projection |
| `Projection.EntryOrderIsIrrelevant` | src/crypto_trader/ledger/projections.py:101-112 | neither the stored order nor the sequence numbers of the entries matter |
| `Totals.ReplayAddsUp` | src/crypto_trader/ledger/projections.py:101-159 | for every ledger: the replay fails exactly when some trade lacks its fields or sells more than the trades before it left, reporting the first such trade; else each balance is the initial one plus the cash and margin debits less credits of its currency, fees, deposits and withdrawals are each the sum of their own entries, each quantity the net traded, and realised PnL that of the positions |
| `Totals.PositionsPayForThemselves` | src/crypto_trader/ledger/projections.py:125-159 | in every ledger of sane trades that replays, the cost basis less realised PnL of each symbol is the notional bought less the notional sold |
| `Conservation.BuyKeepsSound` | src/crypto_trader/ledger/projections.py:139-142 | after a buy, average price times quantity is what it was plus the notional bought |
| `Conservation.SellReleasesExactly` | src/crypto_trader/ledger/projections.py:143-158 | a sell within the position releases average cost times quantity and earns the price above the average, what stays keeps its average, selling out leaves nothing, and the clamp at zero never bites |
| `Conservation.ReplayKeepsSound` | src/crypto_trader/ledger/projections.py:125-159 | every reachable position has quantity at least zero and cost basis = average entry price x quantity |
| `Conservation.EquityIdentity` | src/crypto_trader/ledger/projections.py:96-159 | equity = initial + deposits - withdrawals + realised PnL - fees after every replay of accounted transactions that does not oversell |
| `Conservation.TradesAreAccounted` | src/crypto_trader/ledger/service.py:70-98 | every generated trade journal meets the hypothesis of the equity identity |
| `Conservation.CashTransferIsAccountedIff` | src/crypto_trader/ledger/projections.py:113-121 | a deposit or withdrawal with one CASH posting in its direction, among any postings to other accounts, meets that hypothesis if and only if the posting carries the metadata amount |
| `Conservation.ScopedReplayAgrees` | src/crypto_trader/ledger/projections.py:169-204 | leaving out the futures entry types gives the same positions and realised PnL, and each balance differs by exactly the CASH and MARGIN moved by what was left out |
| `RiskGate.GatePassesIff` | src/crypto_trader/risk/engine.py:21-61 | the gate admits exactly a positive quantity that, reduce-only, takes exactly that much off the position, and never sells spot short |
| `RiskGate.SpotGateKeepsOrder` | src/crypto_trader/risk/engine.py:21-61 | a spot stream the gate lets through never oversells, never overshoots and never reduces the wrong way |
| `RiskGate.LongOnlyOrderlyIff` | src/crypto_trader/risk/engine.py:40-55 | among long-only streams that never oversell, the orderly ones are those without a reduce-only buy |
| `Agreement.OrderlyCyclesAccountForEverything` | src/crypto_trader/governance/trade_episodes.py:180-329 | at every moment of an orderly stream, long or short: all cycles balance, their gross PnL plus the cash of the open tail is the cash of all fills, and their fees plus the tail's are all fees |
| `Agreement.FlatMeansNoTail` | src/crypto_trader/governance/trade_episodes.py:180-329 | once flat, episode gross PnL is all the cash and nothing is left over |
| `Settlement.EngineReleaseIsReplayReleaseIff` | src/crypto_trader/runtime/engine.py:976-992 | the cost the engine journals for a sell is the cost replay releases if and only if the average price is not zero or the sell is free |
| `Settlement.FillMovesPosition` | src/crypto_trader/ledger/projections.py:125-159 | a fill that sells no more than is held moves the position by its signed quantity, and realised PnL less cost basis by its cash |
| `Settlement.SettledSnapshot` | src/crypto_trader/runtime/engine.py:993-1010 | replaying the engine's journal of such a fill raises nothing, changes only that symbol's position, adds the fee, and moves cash by the fill's cash less the fee |
| `Settlement.SettledBooks` | src/crypto_trader/runtime/engine.py:939-1010 | from any ledger without open positions, after any number of fills that sell no more than is held, in any number of symbols and whatever their reduce-only flags: the ledger replays without fault and every position, fee and balance is determined by the fills |
| `SettledRows.SettledLedger` | src/crypto_trader/runtime/engine.py:939-1010 | at every moment of such a stream the ledger is what it held and then one row for each fill, in order, with the ids, trade, settlement currency and account movements of that fill, and the replayed balance of every currency has moved by what the fills settled in it paid, fees off |
| `Settlement.SettledAssets` | src/crypto_trader/runtime/engine.py:976-1010 | and if prices are positive, POSITION_ASSET of every symbol has moved by exactly the cost basis its position carries |
| `Settlement.SeedLedgerIsReady` | src/crypto_trader/runtime/engine.py:1026-1049 | a ledger of seed deposits, or of anything but trades, is such a starting ledger |
| `Settlement.FlatLedgerIsReady` | src/crypto_trader/runtime/engine.py:939-1010 | so is the ledger of any settled stream that ended flat |
| `Settlement.FlatSettlement` | src/crypto_trader/ledger/projections.py:125-159 | a stream that sells no more than is held and ends flat has realised in each symbol the cash of its fills, and the account has gained their cash less fees |
| `Settlement.LedgerMatchesEpisodes` | src/crypto_trader/ledger/projections.py:125-159 | at every moment, for every symbol: replayed realised PnL less carried cost has grown by the gross PnL of the episodes so far plus the cash of the unfinished cycle, and with positive prices POSITION_ASSET has moved by exactly the carried cost |
| `Settlement.LedgerAndEpisodesAgree` | src/crypto_trader/governance/trade_episodes.py:180-329 | main result: from any ledger that replays to flat positions, for every admitted spot stream in any number of symbols that ends flat, each symbol's realised PnL has grown by its episodes' gross PnL and the account by exactly the episodes' net PnL |
| `AssetAccount.AssetBalanceIsCostBasisIff` | src/crypto_trader/ledger/projections.py:139-158 | for every ledger of generated journals that replays, the net POSITION_ASSET balance of each symbol is its replayed cost basis at every prefix if and only if each sell posted the released average cost |
| `LongOnly.LedgerEarnsTheCash` | src/crypto_trader/ledger/projections.py:125-159 | for a spot stream of one symbol that starts and ends flat and never oversells, with any reduce-only flags, the settled and replayed ledger agrees with the episodes exactly when they earn the cash of the fills |
| `LongOnly.AgreementIffNoReduceOnlyBuys` | src/crypto_trader/governance/trade_episodes.py:173-210 | for such a stream, settled on top of any ledger without open positions, the realised PnL of the replayed ledger is the episodes' gross PnL at every price if and only if none of the buys is reduce-only |
| `LongOnly.ReduceOnlyBuyDisagrees` | src/crypto_trader/governance/trade_episodes.py:173-210 | if there is a reduce-only buy, replayed ledger and episodes disagree at the given prices or after raising the price of one named buy |
| `Intents.StepNeverReverses` | src/crypto_trader/ai_brain/runtime_adapter.py:23-76 | the exact position after one filled intent: unmoved by HOLD, NO_TRADE, NO_ACTION and unknown actions, opened by the request only when flat, grown by ADD by the smaller of request and position, shrunk by REDUCE by the request but not past zero, zero after EXIT; never through zero |
| `Intents.OrdersIff` | src/crypto_trader/ai_brain/runtime_adapter.py:23-76 | which intents give an order at which position: idle ones none, opens only when flat, the others only when not, with side, quantity and reduce-only flag |
| `Intents.MissingDataNeverBlocksAnExit` | src/crypto_trader/market_data/new_risk_gate.py:55-69 | an order is classified as reducing exactly when the mapping made it reduce-only, so missing market data blocks opens and adds and never an exit |
| `Intents.OrderlyIffRequestedPositive` | src/crypto_trader/ai_brain/runtime_adapter.py:23-76 | the order fits the position it meets if and only if its requested size is positive; an exit needs no size |
| `Intents.RunNeverReverses` | src/crypto_trader/ai_brain/runtime_adapter.py:23-76 | that exact law at every step of every run over any number of symbols, where only the decided symbol moves and idle intents emit nothing |
| `Intents.RunIsOrderly` | src/crypto_trader/ai_brain/runtime_adapter.py:23-76 | the fills of every run with positive requests are orderly in every symbol |
| `Intents.RunsProduceBalancedCycles` | src/crypto_trader/governance/trade_episodes.py:180-210 | so every cycle such a run produces exits exactly what it entered, and the cycles with the open tail account for all its cash and fees |
| `Intents.SpotRunIsAccepted` | src/crypto_trader/risk/engine.py:21-61 | every order of a spot run passes the no-reversal gate at the position it meets |
| `Intents.SpotRunEarnsItsEpisodes` | src/crypto_trader/runtime/engine.py:939-1010 | end to end: a spot run that closed every position, filled at any prices, settled on top of any ledger without open positions and replayed, has earned exactly the net PnL of its episodes |
| `EpisodeStore.EpisodeTable.Persist` | src/crypto_trader/governance/trade_episodes.py:395-467 | inserts a missing key, or rewrites only the derived columns of a known one, and says which |
| `EpisodeStore.EpisodeTable.RecordAllCycles` | src/crypto_trader/governance/trade_episodes.py:488-608 | the backfill leaves the table of its upserts (whose rows the laws of `Recorded` read off the fills), and its counters are the rows added and the rows met again |
| `EpisodeStore.KeysAreDistinct` | src/crypto_trader/governance/trade_episodes.py:268-329 | fill ids being unique, no two completed cycles share an episode key |
| `EpisodeStore.RerunChangesNothing` | src/crypto_trader/governance/trade_episodes.py:488-608 | running the backfill again on unchanged facts inserts nothing and leaves the table equal |
| `EpisodeStore.OldCyclesStay` | src/crypto_trader/governance/trade_episodes.py:180-210 | appending fills leaves the clean cycles of a symbol a prefix of the new ones |
| `EpisodeStore.RunsKeepIdentities` | src/crypto_trader/governance/trade_episodes.py:395-467 | no run, whatever its facts, removes an episode or changes its symbol, strategy or creation time |
| `EpisodeStore.RunKeysIgnoreLedger` | src/crypto_trader/governance/trade_episodes.py:488-608 | which episodes a run records does not depend on the perpetual ledger's hits or leverages |
| `EpisodeStore.LaterFillsOnlyAdd` | src/crypto_trader/governance/trade_episodes.py:488-608 | over any table, after later fills and with any new perpetual ledger, a run keeps every id with its identity, inserts exactly the newly completed, untainted cycles the table did not hold, each once, and brings every recorded episode up to date; if the perpetual ledger is unchanged, all other rows are equal |
| `EpisodeStore.QuarantinedFillsNeverEnter` | src/crypto_trader/governance/trade_episodes.py:520-575 | no run writes an episode holding a fill quarantined at that run |
| `Recorded.RunRecordsTheCleanCycles` | src/crypto_trader/governance/trade_episodes.py:523-608 | a run writes a row for every completed cycle of its symbols that holds no quarantined fill and spans no quarantine window of its symbol, and no other row |
| `Recorded.TableTellsTheCleanCycles` | src/crypto_trader/governance/trade_episodes.py:488-608 | after a backfill over any table each clean cycle has its row with all its columns, leverage included, as its fills and the perpetual ledger imply, and for every other cycle the table is as it was |
| `Recorded.TableEarnsTheCash` | src/crypto_trader/governance/trade_episodes.py:268-329 | and the row of a proper clean stretch without a ledger hit holds exactly the cash of its fills less their fees, with the verdict of that sign |
| `Recorded.CleanFillsSnoc` | src/crypto_trader/governance/trade_episodes.py:511-546 | a run replays the fills of the symbol that are not quarantined, in their order |
| `RateLimiting.RateLimiter.Allow` | src/crypto_trader/execution/rate_limiter.py:15-24 | refills, then grants and spends if the tokens reach the cost, else only refills |
| `RateLimiting.GrantedIffEveryWindowHasRoom` | src/crypto_trader/execution/rate_limiter.py:15-24 | a request is granted if and only if it exceeds capacity + refill x length in no window that ends with it |
| `RateLimiting.WindowBound` | src/crypto_trader/execution/rate_limiter.py:9-24 | no window of any run spends more than capacity + refill x length |
| `RateLimiting.TokensInRange` | src/crypto_trader/execution/rate_limiter.py:9-24 | tokens stay between zero and capacity |
| `RateLimiting.WaitingIsEnough` | src/crypto_trader/execution/rate_limiter.py:15-24 | a request of at most the capacity is granted once cost/refill seconds passed without a grant |
| `Precision.RoundTickKeepsIff` | src/crypto_trader/domain/money.py:84-88 | a price passes the precision check exactly when it is on the grid of the last digit of the normalized tick |
| `Precision.TickMultiplesSurvive` | src/crypto_trader/domain/money.py:84-88 | every multiple of the tick passes |
| `Precision.RoundsToTheTickIff` | src/crypto_trader/domain/money.py:84-88 | whatever passes is a multiple of the tick itself if and only if the tick is a power of ten |
| `Precision.FloorToStepKeepsIff` | src/crypto_trader/domain/money.py:91-99 | a quantity passes exactly when it is a whole number of steps |
| `Precision.RoundTickIsNearest` | src/crypto_trader/domain/money.py:84-88 | a rounded price is a nearest multiple of the unit, in a tie the one farther from zero; it raises exactly for a tick that is not positive |
| `Precision.FloorToStepCuts` | src/crypto_trader/domain/money.py:91-99 | a floored quantity is the last multiple of the step between zero and it; it raises exactly for a step that is not positive |
| `Authority.ExecutionAuthority.Authorize` | src/crypto_trader/execution/authority.py:52-144 | for usable instruments the answer is APPROVE if and only if everything is fit and the limiter, if any, grants; REJECT when only permanent conditions fail, HOLD when only transient ones do; a token is taken if and only if everything is fit |
| `Authority.GuardsPassIffFit` | src/crypto_trader/execution/authority.py:67-139 | the guards let an order through exactly when each condition of one conjunction holds (grid, minimums, lease, mode, data, risk, gate and the rest) |
| `Authority.DecisionIff` | src/crypto_trader/execution/authority.py:52-144 | each answer has its exact condition, also when failures mix: REJECT if and only if a permanent failure comes before every transient one in the order of the checks |
| `Authority.FailuresDecide` | src/crypto_trader/execution/authority.py:67-144 | permanent failures alone reject, transient failures alone hold, and an empty limiter holds |
| `Authority.EveryRefusalIsJustified` | src/crypto_trader/execution/authority.py:67-139 | the note of every refusal, the no-reversal reasons included, names a condition that really fails |
| `Authority.RaisesOnlyUnusable` | src/crypto_trader/execution/authority.py:127-132 | it raises only for a tick or step that is not positive, with the account allowed to trade and no transient condition failing |
| `Authority.ApprovalsWithinBudget` | src/crypto_trader/execution/authority.py:139-144 | the answers that say APPROVE, sharing a limiter, stay within capacity + refill x time in every window of every run; refusals cost nothing |
| `CircuitBreaker.LLMGateway.CircuitOpen` | src/crypto_trader/llm_runtime/gateway.py:395-402 | open means stamped and not expired; an expired circuit is reset by the question (when that is, `BeginFollowsTheLog` and `TimedResetsAreLate` say from the log and the clock) |
| `CircuitBreaker.LLMGateway.Begin` | src/crypto_trader/llm_runtime/gateway.py:104-153 | `invoke` up to its first transport call: a refusal writes one usage row and sends nothing, an admission sends one call and writes none |
| `CircuitBreaker.LLMGateway.Receive` | src/crypto_trader/llm_runtime/gateway.py:151-200 | an answer makes the invocation sleep before a retry, fail and count, or succeed and reset the circuit |
| `CircuitBreaker.BreakerReflectsHistory` | src/crypto_trader/llm_runtime/gateway.py:395-408 | in every interleaving the failure count is the failures completed since the last success or timed reset, and the circuit is stamped, with the time of the last failure, exactly from the threshold on |
| `CircuitBreaker.BeginFollowsTheLog` | src/crypto_trader/llm_runtime/gateway.py:104-153 | in every interleaving an admitted invocation is turned away with CIRCUIT_OPEN and no call exactly when the failures since the last success or timed reset reach the threshold and the last is less than the reset time ago; any other sends exactly one call |
| `CircuitBreaker.TimedResetsAreLate` | src/crypto_trader/llm_runtime/gateway.py:395-402 | every timed reset of every reachable log comes at least the reset time after the last failure before it |
| `CircuitBreaker.RefusedRoutesAreReported` | src/crypto_trader/llm_runtime/gateway.py:104-134 | every other invocation sends nothing and writes one row with the code for its route or provider |
| `CircuitBreaker.AnswersDecide` | src/crypto_trader/llm_runtime/gateway.py:146-200 | in every interleaving an answer makes its invocation sleep exactly when it is a retryable failure with attempts left, and else ends it with one row and one success or failure in the log |
| `CircuitBreaker.UsageReportsTheLastAnswer` | src/crypto_trader/llm_runtime/gateway.py:146-200 | the row of an invocation that called out carries the error of its last answer, or none when that was valid |
| `CircuitBreaker.EveryInvocationReportsOnce` | src/crypto_trader/llm_runtime/gateway.py:439-457 | in every interleaving each finished invocation has written exactly one usage row, and none makes more than its retries + 1 transport calls |
| `CircuitBreaker.RetriesFollowRetryableFailures` | src/crypto_trader/llm_runtime/gateway.py:146-153 | in every interleaving the calls of an invocation carry the attempts 0, 1, 2 and so on, and every call that is not its invocation's last was answered, at its own attempt, by a retryable failure |
| `CircuitBreaker.NoOpenCallsIffResumesClosed` | src/crypto_trader/llm_runtime/gateway.py:135-153 | no transport call of a run goes out under an open, unexpired circuit if and only if no retry wakes under one |
| `CircuitBreaker.SoloRunsNeverCallOpen` | src/crypto_trader/llm_runtime/gateway.py:135-153 | without overlapping invocations no call goes out under an open circuit |
| `CircuitBreaker.NoRetriesNoOpenCalls` | src/crypto_trader/llm_runtime/gateway.py:135-153 | however often the configuration is reloaded, if none ever has a route to an admitted provider with retries, no interleaving lets a call out under an open circuit |
| `CircuitBreaker.OverlappingRetryCallsOpen` | src/crypto_trader/llm_runtime/gateway.py:135-180 | for every threshold, every positive reset time and every configuration with such a route there is an interleaving that does |
| `CircuitBreaker.NeverCallsOpenIffNoRetries` | src/crypto_trader/llm_runtime/gateway.py:135-180 | so a configuration is safe in all interleavings if and only if no route leads to an admitted provider with retries |
| `TradeReview.HumanApprovalGate.Resolve` | src/crypto_trader/governance/reviewers.py:194-205 | consumes the pending request; passes only a timely yes |
| `TradeReview.PendingIsOpenRequests` | src/crypto_trader/governance/reviewers.py:182-205 | after any run the pending map is exactly the requests not yet answered, with their latest times |
| `TradeReview.HighestLevelNeedsAFreshYes` | src/crypto_trader/governance/trade_review.py:38-150 | over every run an L4 trade is approved if and only if neither reviewer rejects and a yes answers an unconsumed request for its id within the timeout |
| `TradeReview.ApprovalsNeverOutnumberRequests` | src/crypto_trader/governance/reviewers.py:182-205 | per id, approvals (plus a request still open) never outnumber requests |
| `TradeReview.LevelsIff` | src/crypto_trader/governance/risk_levels.py:31-54 | which inputs reach which level, with the position share as a limit on the notional: L4 for stress or any top limit, L3 and L2 for their limits below that, L1 otherwise |
| `TradeReview.LevelOnePasses` | src/crypto_trader/governance/trade_review.py:50-68 | at L1 the proposal passes untouched |
| `TradeReview.LevelTwoIsTheRiskReview` | src/crypto_trader/governance/trade_review.py:69-104 | at L2 the risk reviewer decides: REDUCE gives 0.8 of the position and leverage capped at 3, anything but PASS and REDUCE gives nothing |
| `TradeReview.LevelThreeIsTheStricter` | src/crypto_trader/governance/trade_review.py:107-150 | at L3 the stricter reviewer decides: approved if and only if neither rejects or escalates, in full if and only if both pass, REDUCE gives 0.6 and a cap of 2 |
| `TradeReview.LevelFourIsTheHuman` | src/crypto_trader/governance/trade_review.py:107-150 | at L4 a rejecting reviewer is final, without an answer the trade waits with its request entered, with one the gate decides all or nothing |
| `TradeReview.ReviewsOnlyShrink` | src/crypto_trader/governance/trade_review.py:38-150 | at every level approved size and leverage never exceed the proposal, and a rejecting reviewer overrides the human |
| `FactorProfiles.Classify` | src/crypto_trader/factors/profiles.py:161-203 | the loop collects exactly the factors that are not usable and, of those, the unreported ones |
| `FactorProfiles.ReadinessMeaning` | src/crypto_trader/factors/profiles.py:206-216 | READY, DEGRADED and BLOCKED say exactly which factors the entries report usable |
| `FactorProfiles.AssessProfileFromSnapshot` | src/crypto_trader/factors/profiles.py:206-216 | the assessment over the statuses the entries carry and, for failed factors they do not name, the states parsed from the warnings |
| `FactorProfiles.AssessmentLists` | src/crypto_trader/factors/profiles.py:161-216 | the lists of an assessment, from the snapshot: blocked and degraded by the required and optional factors whose last entry is not usable, missing those that neither an entry nor the failed list names |
| `FactorProfiles.WarningsDecide` | src/crypto_trader/factors/profiles.py:219-225 | the first warning about a factor gives its state, an unknown state reads as CALCULATION_FAILED, and no warning as INSUFFICIENT_HISTORY |
| `FactorProfiles.Evaluate` | src/crypto_trader/factors/profiles.py:228-244 | the early-exit entry gate decides, for every profile and snapshot, as the assessment by lists does |
| `FactorProfiles.FullIsWellFormed` | src/crypto_trader/factors/profiles.py:108-133 | the union of any family keeps required and optional factors apart and duplicate-free |
| `FactorProfiles.FullIsTheConjunction` | src/crypto_trader/factors/profiles.py:108-133 | FULL is unblocked if and only if every member is, and ready if and only if every member is and every other known factor is usable |
| `FactorCapture.FactorCaptureEngine.Capture` | src/crypto_trader/factors/capture.py:60-81 | results are kept in order, also those of a group that raised; the raising group is charged to all its factors |
| `FactorCapture.FactorToolGateway.CalculateSnapshot` | src/crypto_trader/factors/tool_gateway.py:55-165 | the snapshot without candles, after a raised capture, and after a capture that returned |
| `FactorCapture.EveryFactorExactlyOnce` | src/crypto_trader/factors/tool_gateway.py:108-149 | every expected factor appears exactly once, in the entries or in the failed list, and nothing else appears, even when groups raise midway |
| `FactorCapture.EveryFactorHasItsState` | src/crypto_trader/factors/tool_gateway.py:105-149 | what each expected factor is reported as: its assessed state when produced, CALCULATION_FAILED with the exception of its group when that raised first, INSUFFICIENT_HISTORY otherwise |
| `FactorCapture.StateMeans` | src/crypto_trader/factors/health/assessment.py:61-100 | a result is usable exactly when channel, value and a positive confidence are there, a measured zero told apart; failed exactly when only the value is not there; else missing |
| `FactorCapture.LastResultsRead` | src/crypto_trader/factors/tool_gateway.py:150-168 | later lookups find the last result of a factor |
| `FactorCapture.EveryWarningReadsBack` | src/crypto_trader/factors/profiles.py:219-225 | warnings match the failed factors one to one, and parsing them returns for each the state that was printed |
| `FactorCapture.TotalFailureReadsBack` | src/crypto_trader/factors/tool_gateway.py:65-107 | after a raised capture every expected factor is failed once, with the exception in its warning, and reads back as CALCULATION_FAILED |
| `FactorCapture.FactorGroupsAreDistinct` | src/crypto_trader/factors/capture.py:29-50 | the real groups hold twenty distinct names without a colon, as those laws require |
| `Money.RoundTrip` | src/crypto_trader/domain/money.py:23-81 | reading a printed decimal gives the same number, for every decimal that prints at all |
| `Money.ReadsIff` | src/crypto_trader/domain/money.py:23-45 | a text is accepted if and only if, without surrounding blanks and underscores, it is sign, digits with perhaps a point and perhaps an exponent, and then reads as the number that means |
| `Money.StripIsInner` | src/crypto_trader/domain/money.py:32 | stripping takes off blanks only, at both ends, and all of them |
| `Money.PrintsAlikeIffEqual` | src/crypto_trader/domain/money.py:73-81 | two decimals print alike if and only if they are numerically equal |
| `Money.PrintsTidily` | src/crypto_trader/domain/money.py:79-81 | the text ends in a digit, and after a point never in a zero |
| `Money.FormatRaisesIff` | src/crypto_trader/domain/money.py:77 | printing raises exactly for magnitudes of 10^20 - 5*10^-9 and more |
| `Money.TwentyDigitsCanRaise` | src/crypto_trader/domain/money.py:77 | a number below 10^20 for which it raises |
| `Drawdown.FactorPerformanceTracker.MaxDrawdown` | src/crypto_trader/factors/performance.py:26-57 | the result is the largest fall of the factor's accumulated PnL from any moment to a later one, the start included, and some pair attains it |
| `Drawdown.PnlsAreTheFactors` | src/crypto_trader/factors/performance.py:26-57 | observations of other factors do not count, those of the factor all do, in order |
| `Drawdown.WorstFall` | src/crypto_trader/factors/performance.py:48-57 | one pass with running total and peak finds the maximum over all pairs |
| `Drawdown.SimulateDrawdown` | src/crypto_trader/fund_simulation/simulator.py:24-34 | one pass finds the worst fraction below the running peak, for any returns |
| `Drawdown.PeakDrawdownIsWorst` | src/crypto_trader/fund_simulation/simulator.py:24-34 | which is the worst fraction lost between any two moments, if no period loses more than everything |
| `Drawdown.DrawdownBelowOneIff` | src/crypto_trader/fund_simulation/simulator.py:24-34 | it lies between 0 and 1, and below 1 if and only if no period loses everything |
| `Drawdown.LossBeyondAllMisleads` | src/crypto_trader/fund_simulation/simulator.py:24-34 | a concrete stream with a larger loss for which the one pass reports too little |
| `Drawdown.FirstLossBeyondAllIff` | src/crypto_trader/fund_simulation/simulator.py:24-34 | at the first period that loses more than everything, the one pass still finds the worst fraction if and only if everything was lost before or nothing had moved at all |
| `MarketWindow.MarketDataEngine.Ingest` | src/crypto_trader/alpha/market_data_engine.py:34-47 | accepts a bar exactly when it is later than the last one held, and keeps the window equal to the last max_bars accepted bars in strictly increasing time |
| `MarketWindow.AcceptedAreRecords` | src/crypto_trader/alpha/market_data_engine.py:44-46 | whatever the window size, the accepted bars are those later than every bar delivered before |
| `MarketWindow.SmaSeesFullHistory` | src/crypto_trader/alpha/market_data_engine.py:49-62 | a mean over no more bars than the window holds is the mean over the full history |
| `MarketWindow.EmaSeesFullHistoryIff` | src/crypto_trader/alpha/market_data_engine.py:64-72 | the exponential average over the window is the one over the full history, for all closes, if and only if no bar has left the window or it covers a single bar |
| `MarketWindow.DonchianLooksBack` | src/crypto_trader/alpha/market_data_engine.py:86-92 | a channel with an offset is the channel that could be seen that many bars earlier |
| `MarketWindow.SmaWithin` | src/crypto_trader/alpha/market_data_engine.py:60-62 | the simple average lies between the lowest and highest close it covers |
| `MarketWindow.EmaWithin` | src/crypto_trader/alpha/market_data_engine.py:64-72 | so does the exponential one for a positive number of bars |
| `MarketWindow.SmaSlides` | src/crypto_trader/alpha/market_data_engine.py:60-62 | the mean is given exactly from n closes on, and a new close moves it by an n-th of its distance to the close pushed out |
| `MarketWindow.EmaFollows` | src/crypto_trader/alpha/market_data_engine.py:64-72 | the exponential average starts as the mean of the first n closes, and each later close x moves it to (2x + (n - 1) ema) / (n + 1) |
| `MarketWindow.DonchianSpans` | src/crypto_trader/alpha/market_data_engine.py:86-92 | the channel edges are among the prices of exactly the n bars that end offset bars ago, and bound them all; without any such bar there is none |

## Left out

- Decimal rounding at context precision in the accounting, indicator and drawdown code: amounts there are exact reals.
  Only the decimal printer rounds as the code does.
- Database sessions, JSON, timestamps as text and hashing: tables are sequences or maps, and the episode key is the
  tuple that is hashed. The columns for exit reason, lineage, regime and review status are not modelled.
- Concurrent writers of the ledger (the check and the insert are separate sessions): a single writer is modelled.
  Replay order is insertion order; ties of creation time and transaction id are not modelled.
- Positions shared by reference between snapshots: they are map values here.
- Settlement of perpetual fills, and the engine's in-memory quarantine set at settlement: a settled stream is spot and
  unquarantined. The perpetual ledger enters only as the realised PnL it reports per order.
- Stored perpetual leverage is whatever the facts of a run say; its stability over runs is not claimed.
- Exceptions out of a transport call, latencies, the length of a backoff, token counts, and the provider test and
  qualification routes of the LLM gateway.
- The scores of the two reviewers, the risk engine apart from its no-reversal check, the lease, order book and market
  checks behind the gates: their verdicts are parameters.
- The factor formulas: that a calculator appends only factors of its own group, each at most once, is a hypothesis
  (`FactorCapture.WellGrouped`).
- Precision.RoundTickKeepsIff: the limit of 28 digits on a rounded price is not modelled; prices and quantities are exact
  reals, the tick is a decimal.
- Money.RoundTrip: signs, points, exponents, underscores and surrounding blanks are read as ASCII; non-ASCII digits and
  blanks, the sign of zero and exponents past the limits of the decimal type are not modelled. The printer runs in the
  default context of 28 digits.
- The other statistics of the tracker, the simulator and the market engine (averages, ratios, volatility, z-score) and
  the advisory scoring modules: they would only add easy members.
- Frontend, HTTP routes, migrations and exchange clients.
