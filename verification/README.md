# ZettaBridge: a verified model of paper trading, its sweep and its protocols

ZettaBridge turns trading signals into orders. This project models, in Dafny, the parts of
its backend whose correctness is an argument over many steps, and proves what they promise:

* **The paper-trading ledger.** An order is validated, settled against a signed position at
  average cost (`PaperEngine`), and committed with its position, trade and cash
  (`PaperLedger`, with the class `PaperStore`). `FillLaws` holds the laws of the arithmetic,
  `LedgerInvariant` what every run of orders, resets, account edits, marks and sweeps keeps,
  `OrderAcceptance` which orders are filled, why the others are not and what a fill writes,
  `AccountBalances` where the balances come from, `LedgerLaws` and `TradingRuns` the theorems
  about accounts.
* **The P&L summary.** The drawdown scan (`Drawdown`), the order breakdown
  (`OrderBreakdown`) and the win and loss aggregates (`TradePerformance`).
* **The mark-to-market sweep.** Deduplicated, batched quotes and two-phase writes
  (`MarkSweep`), proved to refine one query per open position.
* **Win rate over live trades** (`WinRate`), at average cost per symbol, and when a FIFO
  reading would agree (`FifoLots`).
* **Protocols.** The Kite basket handoff with its racing expirers (`PublisherHandoff`),
  organizations and invites (`OrgGovernance`; `OrgEffects` says when each transaction succeeds
  and what it changes), and Stripe event redelivery (`StripeWebhook`; `StripePlans` says what
  each event does to whom).
* **The product-list column**, parser and printer (`ProductCodes`).

`Common`, `RealArithmetic` and `PaperText` hold shared vocabulary. Money and quantities are
exact reals. A database transaction is one atomic step, except where the code itself reads
first and writes later: sweeps, expirers and event handlers are split into those steps, and
anything may come between them. Objects whose methods update fields are classes; each method
is proved against a function of the old state, and the theorems are about that function.

`dafny verify dfyconfig.toml` checks everything.

## What turned out not to hold

Each has a concrete run or input, and an exact condition for all inputs.

* *Equity without cash equals cash plus market value* fails when a mark is written from a
  copy that a fill has overtaken (`RaceBreaksReportedEquity`). In every reachable state the
  error is exactly the staleness of the marks less the drift of late edits (`EquityGap`). It
  is nothing when every mark and every edit is written while current, in particular when no
  fill comes between their reads and writes (`EquityIsCashPlusMarketValue`,
  `SweepsBetweenFillsKeepEquity`). What one late mark or one uninterrupted sweep makes of it,
  on any account, is exact too (`StaleMarkKeepsEquityIff`, `UndisturbedSweepKeepsEquityIff`).
* *Balance edits are kept away from accounts with fills, to protect their P&L math*: not when
  a fill comes between an edit's read and its write, even if only the label is edited
  (`LateEditLosesTheFill`). Cash and cost stay balanced throughout a run if and only if every
  edit is written while current (`AlwaysBalancedIff`).
* *The drawdown scan* starts its peak at zero, so it misreads a history that is only ever in
  debt, which a reset and one costly order reach (`DebtIsReachedAndMisread`); it is exact under
  `ScanExactIff`.
* *`ExpirePublisherOrderIfStale` returns true when the order is (now) expired*: not when a
  callback comes between the read and the write (`AnswerCanBeUntrue`, `ReportedExpiredIff`).
* *The background expiry sweep rejects linked trades still awaiting confirmation*: not one
  linked between its read and its write (`LateLinkStrands`); `SweepCanRescueIff` says which.
* *A retried Stripe event finishes what an interrupted handling left over*: not the pauses
  after the plan update (`PauseCanBeSkipped`, `RedeliveryCompletesIff`), nor those whose
  errors were discarded (`LostPauseIsRecorded`, `RecordedWithFaultsIff`).
* *`UpdateOrgMemberRole` keeps one owner*: not by itself (`SecondOwnerIsPossible`,
  `RoleUpdateKeepsInvIff`).
* *`ValidateStored` rejects unknown products*: not in a list (`UnknownListIsAccepted`; exactly
  `StoredAccepted` is accepted).
* *`WinRate` is FIFO per symbol*, as its comment says: it is average cost, and the two differ
  (`AverageCostIsNotFifo`) unless every open lot was bought at the stored average
  (`VerdictsAgreeIff`).

## Model

| member | source | states |
|---|---|---|
| PaperEngine.IsMultiple | internal/paperengine/fill.go:52-58 | a value passes exactly when value/step is within 1e-6 of some integer |
| PaperEngine.BuySettles | internal/paperengine/fill.go:76-96 | applyBuy, branch by branch, is the signed settlement of +qty (extend, reduce, close, flip) |
| PaperEngine.SellSettles | internal/paperengine/fill.go:99-120 | applySell, branch by branch, is the signed settlement of -qty |
| PaperEngine.UnrealizedPnL | internal/domain/execution.go:46-54 | the three-way branch is one product (last - average) * quantity for long, short and flat |
| PaperEngine.ResolveCloseSide | internal/paperengine/fill.go:63-71 | fails exactly when flat; otherwise the side and quantity sum the position to zero |
| PaperEngine.ComputeFill | internal/paperengine/fill.go:124-250 | the step-by-step computation writes exactly what the signed settlement of the decided delta says, or a rejection with the first broken constraint |
| FillLaws.SellMirrorsBuy | internal/paperengine/fill.go:98-120 | applySell(q,a,n,p) is applyBuy(-q,a,n,p) with quantity and realized P&L negated |
| FillLaws.CostIsConserved | internal/paperengine/fill.go:76-120 | what a fill spends is either held at cost or realized, through every branch |
| FillLaws.SplittingAnOrder | internal/paperengine/fill.go:76-120 | any list of same-side fills at one price equals one fill of their sum in quantity, average, realized P&L, fees and cash, across zero |
| FillLaws.AverageBetweenEntries | internal/paperengine/fill.go:76-120 | over every log of fills the average is 0 exactly when flat, else between the least and greatest entry price since it opened or flipped |
| FillLaws.DriftStep | internal/paperengine/fill.go:52-58 | one lot-checked order adds less than one tolerance of drift from whole lots |
| PaperLedger.PaperStore.constructor | internal/store/paper_trading.go:16-32 | a new account: cash is the starting balance, empty tables, one snapshot |
| PaperLedger.PaperStore.ExecutePaperFill | internal/store/paper_fill.go:31-165 | the transaction's whole new state and result; an order the tables cannot hold changes nothing |
| PaperLedger.PaperStore.Commit | internal/store/paper_fill.go:89-156 | order inserted, position inserted or updated by id under normalised keys, trade inserted, cash set: each only when the outcome holds it |
| PaperLedger.PaperStore.ResetPaperAccount | internal/store/paper_trading.go:194-243 | history cleared, cash restarted at the old or new starting balance, ids never reused |
| PaperLedger.PaperStore.UpdatePaperPositionMark | internal/store/paper_trading.go:500-509 | last price and unrealized P&L of the row with that id change and nothing else does |
| PaperLedger.PaperStore.RecordEquitySnapshot | internal/store/paper_trading.go:634-652 | appends the equity that the summary reports, computed from totals over the tables |
| PaperLedger.PaperStore.PrepareEdit | internal/modules/paperaccounts/handler.go:199-234 | what an edit will write back: both balances as read, or the new balance, refused once cash has moved or when not positive |
| PaperLedger.PaperStore.UpdatePaperAccount | internal/store/paper_trading.go:145-165 | both balances are overwritten with those read earlier, whatever the account holds by then |
| LedgerInvariant.AcceptedEffect | internal/store/paper_fill.go:79-156 | what a filled order writes, table by table: order, position at its key, trade, cash |
| LedgerInvariant.RejectionMovesNothing | internal/paperengine/fill.go:148-156 | a rejected order leaves cash, positions and trades unchanged |
| LedgerInvariant.UpsertMovesOneKey | internal/store/paper_fill.go:105-132 | writing a position changes the row found at its own key and at no other |
| LedgerInvariant.AcceptedOrderExtendsOneLog | internal/store/paper_fill.go:134-146 | a filled order adds one trade to the log of its own key and to no other |
| LedgerInvariant.MarksMoveNoCost | internal/store/paper_trading.go:500-509 | a mark, however stale, never disturbs quantity, average, cash, keys or other rows |
| LedgerInvariant.StepKeepsInv | internal/store/paper_fill.go:31-165 | every event keeps keys unique, trades paired with filled orders and positions equal to the replay of their trades |
| LedgerInvariant.StepImbalance | internal/store/paper_fill.go:79-156 | no fill, mark, sweep or snapshot moves the balance of cash and cost, a reset restores it, and an edit moves it by exactly what it shifts |
| LedgerInvariant.RunKeepsInv | internal/store/paper_fill.go:31-165 | so does every run |
| OrderAcceptance.FilledIff | internal/paperengine/fill.go:18-58 | on any account an order is filled if and only if side and type are known, it has a price on the tick, a BUY or SELL has a positive quantity in whole lots, and a CLOSE finds an open position; otherwise it is rejected, and its reason is the first of these checks, in the engine's order, that fails |
| OrderAcceptance.ToleranceIsAMillionth | internal/paperengine/fill.go:52-58 | a ratio off a whole number by at most a half passes the step check exactly when it is off by less than 1e-6 |
| OrderAcceptance.StoredAsAsked | internal/paperengine/fill.go:125-154 | an order whose side or type no column admits leaves no trace; any other is stored as it was asked for, and a rejected one has no fill price and changes no other column |
| OrderAcceptance.TradedAsAsked | internal/paperengine/fill.go:165-222 | the trade of a filled order: what was asked for, or what flattens the position; at the quoted price moved against the taker by the slippage; its fee in basis points of the value; and the cash pays exactly that |
| OrderAcceptance.FillMovesItsInstrument | internal/store/paper_symbols.go:6-13 | a filled order moves the quantity held for every spelling of its exchange and symbol (case and outer blanks aside) by what it traded and no other quantity, and opens a row only if there was none |
| AccountBalances.ResetRestarts | internal/store/paper_trading.go:194-243 | in every state of any run a reset restarts both balances at the new balance, or at the starting balance if none is given, with empty tables and ids going on |
| AccountBalances.ResetRestoresOpeningBalance | internal/store/paper_trading.go:194-243 | in any run without edits and without resets to a new balance, a reset brings cash back to the balance the account was opened with |
| AccountBalances.EditWritesWhatWasAsked | internal/modules/paperaccounts/handler.go:199-236 | a balance edit is refused exactly when cash has moved or the balance is not positive; otherwise, whatever comes between read and write, it sets both balances to the one asked for, and any other edit sets them to what they were when read |
| AccountBalances.StartingBalanceWasAskedFor | internal/store/paper_trading.go:145-243 | over every run, edits and resets interleaved, the starting balance is the opening one or one that a reset or an accepted edit asked for |
| AccountBalances.HistoryRecordsEquity | internal/store/paper_trading.go:634-652 | in every state of any run a stored order or a snapshot ends with the equity then reported as the newest entry of the history, a reset empties it, nothing else touches it |
| LedgerLaws.CostBasisIdentity | internal/store/paper_fill.go:79-156 | in every reachable state, sweeps and edits interleaved in any way: cash + sum of quantity * average = starting balance + realized P&L - fees + drift of late edits |
| LedgerLaws.AlwaysBalancedIff | internal/store/paper_trading.go:145-153 | the identity holds without drift in every state of a run if and only if each account edit is written while its balances leave cash minus starting balance as it is |
| LedgerLaws.EditsBetweenMovesKeepTheIdentity | internal/modules/paperaccounts/handler.go:199-236 | when every edit is written before the next fill or reset, the identity holds without drift |
| LedgerLaws.PositionsMatchTheirTrades | internal/store/paper_fill.go:31-67 | at most one row per normalised key; its quantity is the signed sum, and its average the replay, of the trades whose orders carry the key; filled orders and trades correspond one to one |
| LedgerLaws.EquityGap | internal/store/paper_pnl.go:296-297 | in every reachable state reported equity misses cash plus market value by exactly the total staleness of the marks less the drift of late edits |
| LedgerLaws.EquityIsCashPlusMarketValue | internal/store/paper_pnl.go:9-16 | over every run whose marks are written from copies still current at the write (or whose row is gone), the equity reported without cash is cash plus market value less the drift of late edits, which is nothing when every edit is current |
| LedgerLaws.NoFillBetweenIsCurrent | internal/marketdata/snapshotjob.go:123-190 | copies read since the last fill are current, whatever rejections, resets and other sweeps came since |
| LedgerLaws.SweepsBetweenFillsKeepEquity | internal/marketdata/snapshotjob.go:123-190 | when every sweep and price update finishes its writes before the next fill, and every edit before the next fill or reset, reported equity is cash plus market value |
| LedgerLaws.MarkMovesEquityError | internal/store/paper_trading.go:500-509 | on any account a mark from any copy moves the equity error by exactly the disagreement of copy and row at the new price, less the row's old gap |
| LedgerLaws.StaleMarkKeepsEquityIff | internal/marketdata/snapshotjob.go:177-190 | on any account equity is right after a mark from an old copy if and only if the earlier error and that disagreement make up the row's old gap; with neither an error nor a gap before, if and only if copy and row agree on P&L at the new price |
| LedgerLaws.StaleMarkOnFlattenedRow | internal/marketdata/snapshotjob.go:131-133 | on a row flattened in between: if and only if the earlier error and the copy's P&L at the new price make up the row's stored P&L; with neither before, if and only if the new price is the old average |
| LedgerLaws.ResetShieldsNewRows | internal/store/paper_trading.go:222-230 | no sweep begun before a reset ever touches a row created after it |
| LedgerLaws.FillHealsItsRow | internal/paperengine/fill.go:211-222 | whatever went stale, the next filled order leaves its row agreeing with UnrealizedPnL |
| TradingRuns.RoundTripCostsItsFriction | internal/paperengine/fill.go:181-206 | flat to flat on one key at quoted price P, cash changes by exactly -P*V*(slippage+fee)/10000, never a gain |
| TradingRuns.AcceptedOrderFillsTheBook | internal/store/paper_fill.go:79-156 | an accepted order moves position, realized P&L, fees and cash of its key by one fill |
| TradingRuns.SplittingOnTheAccount | internal/paperengine/fill.go:76-120 | an order placed in fillable pieces leaves position, realized P&L, fees and cash as placing it whole |
| TradingRuns.AverageWithinEntryPrices | internal/paperengine/fill.go:159-188 | over every run the stored average is 0 exactly when flat, else positive and between the entry fill prices |
| TradingRuns.LotDriftBound | internal/paperengine/fill.go:41-58 | after n non-CLOSE fills since flat, quantity/lot is within n*1e-6 of an integer |
| TradingRuns.CloseFlattensAndThenIsRejected | internal/paperengine/fill.go:165-175 | a filled CLOSE leaves exactly nothing and an immediate second CLOSE is rejected |
| TradingRuns.RaceBreaksReportedEquity | internal/marketdata/snapshotjob.go:123-199 | a concrete run (buy, sweep read, close, sweep write) on which reported equity is wrong |
| TradingRuns.LateEditLosesTheFill | internal/modules/paperaccounts/handler.go:199-236 | a three-event run: a label edit is read, a fill pays 1000, and the write gives the cash back while the position stays |
| TradingRuns.SweepsNeverHealFlatRows | internal/marketdata/snapshotjob.go:130-134 | no sweep that reads a row already flat ever changes it, so its stale P&L outlasts them all |
| Drawdown.ScanDrawdown | internal/store/paper_pnl.go:303-340 | the one-pass loop finds peak and greatest fall of the history with zero put before it, and 0 <= current <= maximum |
| Drawdown.ScanExactFromNonNegativeStart | internal/store/paper_pnl.go:303-340 | from a non-negative first snapshot these are the true peak and greatest fall |
| Drawdown.ScanExactIff | internal/store/paper_pnl.go:303-340 | on any history: peak exact iff some snapshot is non-negative, drawdown exact iff a recorded fall covers the deepest debt |
| Drawdown.DebtIsReachedAndMisread | internal/store/paper_pnl.go:305 | a run of the ledger (reset, then an order whose fee exceeds the balance) on whose history both are wrong |
| Drawdown.HistoryStartsAtOpeningBalance | internal/store/paper_trading.go:28-30 | an account never reset starts its history at its opening balance |
| OrderBreakdown.TallyOrders | internal/store/paper_pnl.go:152-202 | whatever order the groups come in, the counts are those of the orders, and filled + rejected + cancelled + open is all of them |
| OrderBreakdown.SumOpenOrders | internal/store/paper_pnl.go:193-198 | whatever order the map yields its keys in, the open count is that of the non-terminal orders |
| OrderBreakdown.StatusesPartition | internal/store/paper_pnl.go:152-198 | every order is filled, rejected, cancelled or open, exactly one of them |
| TradePerformance.GrossesAddUp | internal/store/paper_pnl.go:209-233 | gross profit is the sum of the gains and gross loss minus that of the losses; together they are realized P&L, and each is zero exactly when no such trade exists |
| TradePerformance.ExpectancyIsMeanOfDecidedTrades | internal/store/paper_pnl.go:246-258 | expectancy exists exactly with wins and losses, and times their number is realized P&L |
| TradePerformance.ProfitFactorAboveOneIff | internal/store/paper_pnl.go:251-254 | the profit factor exists exactly with a loss; times the losses it is the gains, and it exceeds 1 exactly when the trades made money |
| MarkSweep.KeysCollideIff | internal/marketdata/symbol_key.go:6-8 | two normalised symbols share a key exactly when equal or when one moves a bar between exchange and symbol |
| MarkSweep.ListSymbols | internal/marketdata/snapshotjob.go:149-152 | in whatever order the map yields them, each unique key's symbol is listed once |
| MarkSweep.CollectOpen | internal/marketdata/snapshotjob.go:129-140 | the inner loop keeps exactly the open rows and enters each one's symbol |
| MarkSweep.FetchQuotes | internal/marketdata/snapshotjob.go:154-167 | the batches partition the symbols in order, all but the last holding exactly 50, so the requests are as few as the limit allows; the map holds the last quote per key |
| MarkSweep.ApplyMarks | internal/marketdata/snapshotjob.go:174-199 | one mark per quoted row, failed writes skipped, then one snapshot |
| MarkSweep.Sweep | internal/marketdata/snapshotjob.go:106-172 | the whole pass over the accounts: rows read, requests made, quotes kept, and every account's new state |
| MarkSweep.QuoteIsDirect | internal/marketdata/snapshotjob.go:154-167 | a symbol's looked-up quote is what a query for it alone gives, and is missing only if its batch did not report it |
| MarkSweep.LastRowNames | internal/marketdata/snapshotjob.go:122-140 | of rows that share a key, the last one read names the symbol asked for |
| MarkSweep.LastQuoteCounts | internal/marketdata/snapshotjob.go:152-166 | of quotes that share a key, the last one received counts |
| MarkSweep.EachRowIsPricedByItsKey | internal/marketdata/snapshotjob.go:139-178 | each row is priced as the last row read that shares its key |
| MarkSweep.BarlessKeysTellApart | internal/marketdata/symbol_key.go:6-8 | exchanges without a bar never collide |
| MarkSweep.FailedBatchLosesOnlyItsOwn | internal/marketdata/snapshotjob.go:160-166 | a failed batch leaves unmarked only rows whose symbol was in it; marked rows get their own direct price |
| MarkSweep.SweepRefinesDirectQueries | internal/marketdata/snapshotjob.go:106-199 | with every batch answered, each account ends as if every open row had been priced by its own query |
| MarkSweep.UndisturbedSweepReprices | internal/marketdata/snapshotjob.go:174-190 | uninterrupted, the writes set every open row to its looked-up price and leave flat rows alone |
| MarkSweep.UndisturbedSweepKeepsEquityIff | internal/marketdata/snapshotjob.go:174-199 | on any account an uninterrupted sweep leaves exactly the gaps of the rows that are flat, unquoted or whose write failed, less the imbalance of cash and cost; equity is then right if and only if those are equal |
| MarkSweep.WritesAreSteps | internal/marketdata/snapshotjob.go:177-190 | the sweep's writes are the separate mark steps of an account's run, so the run theorems apply to it |
| WinRate.ComputeWinRate | internal/pnl/winrate.go:13-66 | the rate is wins over decided closes, in [0,1], and absent exactly when no close was decisive |
| WinRate.WinRateDecomposesBySymbol | internal/pnl/winrate.go:21-58 | wins and losses of an interleaved list are the sums over the per-symbol lists |
| WinRate.UnpricedRowsAreIgnored | internal/pnl/winrate.go:22-24 | wherever they stand, rows not filled or without a price change nothing: wins, losses and holdings are those of the priced rows alone |
| WinRate.RowEffect | internal/pnl/winrate.go:21-58 | what one more row does in its own columns: a buy adds its lot and its cost, a close takes its lot at the same average or all there is, and wins above or loses below that average; a missing lot is one; no other symbol is touched |
| WinRate.OwnCountsAreTheLoops | internal/pnl/winrate.go:21-58 | the per-symbol wins and losses are what the loop counts on that symbol's rows alone |
| WinRate.StoredAverageWithinBuyPrices | internal/pnl/winrate.go:30-56 | stored lots are positive and the average lies within the symbol's buy prices since it last left the book |
| FifoLots.LotsMatchHolding | internal/pnl/winrate.go:30-56 | after the same rows a first-in-first-out queue holds exactly the quantity of the average-cost book |
| FifoLots.VerdictsAgreeIff | internal/pnl/winrate.go:3 | every close of any size and price gets the same verdict under FIFO and average cost if and only if every open lot was bought at the stored average |
| FifoLots.AverageCostIsNotFifo | internal/pnl/winrate.go:3 | buy 1 at 100, buy 1 at 200, sell 1 at 150: undecided at average cost, a FIFO win |
| PublisherHandoff.PublisherStore.ExpirePublisherOrder | internal/store/publisher_expiry.go:108-158 | the guarded transaction on a row read earlier: its whole effect, and the trade it reports |
| PublisherHandoff.PublisherStore.ExpirePublisherOrderIfStale | internal/store/publisher_expiry.go:43-66 | uninterrupted, the answer is true exactly when the order is expired afterwards, with no trade pending on it |
| PublisherHandoff.PublisherStore.ExpireStalePublisherOrders | internal/store/publisher_expiry.go:70-106 | exactly the overdue open orders expire, one event each, exactly their pending trades are rejected, and exactly the linked trades are returned |
| PublisherHandoff.PublisherStore.InsertPublisherOrder | internal/store/publisher.go:11-33 | the row is stored as the caller made it; an existing id is refused and changes nothing |
| PublisherHandoff.PublisherStore.LinkPublisherOrderTrade | internal/store/publisher.go:125-134 | the order names the trade, whatever its status |
| PublisherHandoff.PublisherStore.UpdatePublisherOrderCallback | internal/store/publisher.go:65-77 | the status is replaced without a guard |
| PublisherHandoff.PublisherStore.UpdatePublisherTradeStatus | internal/store/publisher.go:113-122 | only a trade still pending changes |
| PublisherHandoff.OneExpiryEventPerOrder | internal/store/publisher_expiry.go:119-147 | however many stale expirers race, an order gets at most one HANDOFF_EXPIRED event, exactly one if it ends expired, none while open |
| PublisherHandoff.TerminalStaysTerminal | internal/store/publisher_expiry.go:23-30 | a terminal order never becomes non-terminal in any run |
| PublisherHandoff.PendingIsLeftOnce | internal/store/publisher_expiry.go:160-187 | a trade leaves pending_confirmation at most once and keeps the status it left for |
| PublisherHandoff.ReadOfExpiredSettlesTheTrade | internal/store/publisher_expiry.go:51-57 | a call that reads an expired order with a linked trade returns with it settled, whatever interleaves |
| PublisherHandoff.ReportedExpiredIff | internal/store/publisher_expiry.go:41-66 | the answer is expired exactly for an order read expired or open and overdue, and it is true exactly when no callback on that order came between read and write |
| PublisherHandoff.AnswerCanBeUntrue | internal/store/publisher_expiry.go:41-66 | a four-event run on which the answer is untrue |
| PublisherHandoff.SweepNeverRescues | internal/store/publisher_expiry.go:71-79 | no run of sweep steps settles a pending trade that no open order names, now or in a row already read |
| PublisherHandoff.SweepCanRescueIff | internal/store/publisher_expiry.go:70-106 | some run of sweep steps settles a pending trade if and only if an open order names it, now or in a row already read, or a call is about to reject it |
| PublisherHandoff.LateLinkStrands | internal/store/publisher_expiry.go:70-106 | a five-event run that leaves a pending trade on an expired order, out of every sweep's reach |
| PublisherHandoff.NextLookRescues | internal/store/publisher_expiry.go:51-57 | the next look at that order does |
| PublisherHandoff.TradeEndsAsDecided | internal/store/publisher.go:113-122 | over every run a pending trade ends submitted, cancelled or rejected if and only if the event that met it pending was a return, a cancellation, or an expiry that holds it; nothing later changes that |
| PublisherHandoff.OrderEndsAsAnswered | internal/store/publisher.go:65-134 | over every run an order keeps its deadline, names the trade linked last whatever its status was, and has the user's last answer as its status, even over an expiry |
| OrgGovernance.OrgStore.CreateOrgWithOwner | internal/store/orgs.go:29-92 | the transaction's whole effect and error, the pausing of the owner's personal webhooks included; any failure rolls everything back |
| OrgGovernance.OrgStore.ChooseSlug | internal/store/orgs.go:47-64 | the loop picks the first of the hundred candidates that is free |
| OrgGovernance.OrgStore.AcceptOrgInvite | internal/store/invites.go:138-262 | the checks in order, then verified user, member, accepted mark and paused webhooks together, or the first error and no change |
| OrgGovernance.OrgStore.PausePersonalWebhooks | internal/store/org_membership.go:9-31 | exactly the user's running webhooks outside any organization are paused, and their ids returned |
| OrgGovernance.JoiningPausesPersonalWebhooks | internal/store/org_membership.go:8-31 | after founding or joining, the user has no running personal webhook, and every other webhook is as it was |
| OrgGovernance.OrgStore.RevokeOrgInvite | internal/store/invites.go:118-134 | only an open invite of that organization is revoked |
| OrgGovernance.OrgStore.UpdateOrgMemberRole | internal/store/org_members.go:47-62 | only non-owner rows change |
| OrgGovernance.OrgStore.UpdateOrgMemberStatus | internal/store/org_members.go:64-79 | only non-owner rows change |
| OrgGovernance.OrgStore.RemoveOrgMember | internal/store/org_members.go:81-96 | only non-owner rows are deleted; leaving an organization runs the same statement |
| OrgGovernance.OrgStore.TransferOrgOwnership | internal/store/org_governance.go:86-139 | organization and both member rows change together or not at all |
| OrgGovernance.OrgStore.DeleteUser | internal/store/users.go:84-105 | owned organizations go with their members and invites; a remaining invite the user sent, or a row elsewhere that names the user, blocks it |
| OrgGovernance.OneOwnerOneOrg | internal/store/org_governance.go:86-156 | over every run each organization has exactly one owner row, active and named by it; each user is in at most one organization; no invite is accepted and revoked |
| OrgGovernance.StepKeepsInv | internal/store/invites.go:118-262 | every transaction keeps that, with references and slugs |
| OrgGovernance.InviteUsedAtMostOnce | internal/store/invites.go:118-262 | in any run an invite is accepted or revoked at most once altogether |
| OrgGovernance.CreateKeepsInvIff | internal/store/orgs.go:66-81 | creation keeps the invariant exactly when the named owner is the joining user, as active owner |
| OrgGovernance.RoleUpdateKeepsInvIff | internal/store/org_members.go:47-62 | a role update keeps it exactly when the new role is not owner |
| OrgGovernance.SecondOwnerIsPossible | internal/store/org_members.go:47-62 | a properly founded organization that one role update leaves with two owner rows |
| OrgGovernance.TransferBackRestoresIff | internal/store/org_governance.go:122-136 | transferring back always succeeds and restores the tables exactly when the target had been an admin |
| OrgGovernance.AcceptanceFitsTheSeats | internal/store/invites.go:173-189 | an acceptance never takes an organization over its seat limit |
| OrgGovernance.UserDeletedKeepsInv | internal/store/users.go:84-105 | deleting a user leaves a sound state with nothing that names the user |
| OrgGovernance.FreeSlugIsFree | internal/store/orgs.go:47-64 | the chosen slug is free unless all hundred candidates are taken |
| OrgEffects.RemovalEffect | internal/store/org_members.go:81-96 | on any sound state a removal succeeds exactly when the user has a non-owner row there; then the user belongs to no organization and everybody else where they did |
| OrgEffects.RemovedCanJoin | internal/store/invites.go:138-262 | whoever was removed can then accept any open invite in time to their address of another active organization with a free seat |
| OrgEffects.RoleEffect | internal/store/org_members.go:47-62 | a role update succeeds exactly for a non-owner member and writes exactly the role asked for |
| OrgEffects.StatusEffect | internal/store/org_members.go:64-79 | likewise for the status |
| OrgEffects.AcceptanceIff | internal/store/invites.go:138-226 | an acceptance succeeds exactly when invite, time, organization, seats, membership, address and user allow it; otherwise the error is the first check that fails, and nothing changes |
| OrgEffects.AcceptanceEffect | internal/store/invites.go:205-262 | the user belongs to the inviting organization in the invited role and to no other, the invite is marked, the address proved; all else stays |
| OrgEffects.InvitedCanJoin | internal/store/invites.go:39-46 | an invite that could be sent can be used in time by whoever holds the address and belongs nowhere, if a seat is free, in the role it was sent with |
| OrgEffects.RevokedIsRefused | internal/store/invites.go:118-134 | an invite that an organization revoked is refused after any further run |
| OrgEffects.ClosedInviteIsRefused | internal/store/invites.go:118-171 | an invite accepted or revoked is refused after any further run |
| OrgEffects.ClosedOrgsAcceptNobody | internal/store/invites.go:173-189 | a suspended organization, or one whose limit leaves no free seat, accepts nobody |
| OrgEffects.CreationEffect | internal/store/orgs.go:29-92 | an organization is founded exactly when the founder belongs to none, the rows it names exist, the limit is from 1 to 1000 and a slug is free; it takes the first free one, with the founder as its one member |
| OrgEffects.CandidatesDiffer | internal/store/orgs.go:48-52 | the first candidate is the slug, the later ones carry the try's decimal number, and no two are equal |
| OrgEffects.TransferEffect | internal/store/org_governance.go:86-139 | the errors in their order; then the target owns the organization in both tables, the former owner is an admin, and nobody else moves |
| OrgEffects.OrgDeletionEffect | internal/store/orgs.go:195-210 | an organization that exists goes alone, with its members and invites; its webhooks stay with their users, outside any organization |
| OrgEffects.UserDeletionEffect | internal/store/users.go:84-105 | a deletion is blocked exactly by rows that would still name the user; the user's organizations, memberships and webhooks go, all else stays, and foreign webhooks leave the lost organizations |
| StripeWebhook.WebhookProcessor.Handle | internal/billing/webhook.go:43-70 | one delivery with whichever store calls fail: its whole effect and error, partial effects included |
| StripeWebhook.WebhookProcessor.Apply | internal/billing/apply_plan.go:70-98 | the plan, then the pauses of a downgrade or the clears of an upgrade, whose errors are discarded, on one user |
| StripeWebhook.WithoutFaults | internal/billing/webhook.go:43-70 | a delivery without faults is the one of the redelivery theorems |
| StripeWebhook.WebhookProcessor.SetUserStripeIDs | internal/store/billing.go:57-76 | fails, changing nothing, exactly when another user holds the customer id |
| StripeWebhook.RedeliveriesAddNothing | internal/billing/webhook.go:43-70 | a stream with redeliveries leaves the state of the stream cut to each event's first successful handling |
| StripeWebhook.LostRecordIsHarmless | internal/billing/webhook.go:68-69 | when only the record was lost, handling the event again at once changes no user |
| StripeWebhook.RedeliveryCompletesIff | internal/billing/apply_plan.go:75-95 | a handling interrupted after any number of writes and then redelivered ends like an uninterrupted one exactly when no pause or clear with work to do was skipped |
| StripeWebhook.PauseCanBeSkipped | internal/billing/apply_plan.go:82-92 | a user with a running webhook: the subscription is deleted, the process dies after the plan update, and redelivery leaves the webhook running on the free plan |
| StripeWebhook.RedeliveryAfterStoreFailureIff | internal/billing/webhook.go:99-167 | after any failing store call, redelivery ends like a faultless handling exactly when the plan was not yet written or no discarded pause or clear had work to do |
| StripeWebhook.RecordedWithFaultsIff | internal/billing/apply_plan.go:89-95 | a recorded event leaves what a faultless one would exactly when its failed pauses and clears had nothing to do, and is never repaired |
| StripeWebhook.FailedHandlingChangesNothingIff | internal/billing/webhook.go:43-168 | a delivery that fails for whatever reason leaves no trace exactly when it had nothing to change, a call before the plan update failed, or everything it got to write was there already |
| StripeWebhook.LostPauseIsRecorded | internal/billing/apply_plan.go:89-92 | a subscription is deleted, its pause call fails, and the event is recorded with the webhook running on the free plan |
| StripeWebhook.PlanChangeReachesResources | internal/billing/apply_plan.go:79-95 | one user moves; down leaves every personal brokered webhook (and every personal credential) paused exactly if its call succeeded or all were paused already; up clears the marks if its call succeeded and resumes nothing |
| StripeWebhook.HandlingKeepsCustomersUnique | internal/store/billing.go:57-76 | user and customer ids stay unique, whether handling succeeds or fails and wherever it stops |
| StripeWebhook.OnlyCheckoutsClash | internal/billing/webhook.go:113-168 | subscription events never meet a customer id that another user holds |
| StripePlans.CheckoutEffect | internal/billing/webhook.go:72-111 | a checkout moves exactly the user it names to the plan it bought, with Stripe as source and its ids, unless another user holds the customer id; the errors in their order; nobody named, nobody changes |
| StripePlans.UpdateEffect | internal/billing/webhook.go:113-141 | a subscription that grants access moves exactly the customer who pays by Stripe to the plan bought by metadata or price; without access or such a customer nobody changes; unknown prices and plans are errors |
| StripePlans.DeletionEffect | internal/billing/webhook.go:143-168 | a deleted subscription takes exactly the customer who pays by Stripe down to free, and otherwise nobody changes |
| StripePlans.OnlyTheNamedUserChanges | internal/billing/webhook.go:43-193 | only the user named by a checkout, or the paying customer of a subscription, ever changes, and never by a recorded event |
| StripePlans.StopsAtFailedCall | internal/billing/webhook.go:43-168 | a delivery ends at the store call that fails, unrecorded, with exactly the writes before it; a call it never makes cannot stop it |
| StripePlans.MovedIsMovedTo | internal/billing/apply_plan.go:54-98 | in the order free, paper, pro, pro_plus: a move down pauses and marks every personal brokered webhook and every personal credential, a move up clears the marks of personal ones, and nothing else changes |
| ProductCodes.Parse | internal/credentialproduct/product.go:19-43 | the loop and sort return exactly the codes the text mentions, in canonical order |
| ProductCodes.NormalizeList | internal/credentialproduct/product.go:58-83 | the loop accepts and returns exactly what the declarative form says, errors included |
| ProductCodes.Serialize | internal/credentialproduct/product.go:46-55 | the stored text of the normalised list |
| ProductCodes.SortByCanonical | internal/credentialproduct/product.go:167-180 | a permutation in canonical order |
| ProductCodes.ParseUndoesSerialize | internal/credentialproduct/product.go:19-55 | whenever serializing succeeds, parsing gives the normalised list back |
| ProductCodes.ReparseIff | internal/credentialproduct/product.go:19-55 | parse, serialize, parse gives the first parse exactly when that was not empty |
| ProductCodes.ParsedIff | internal/credentialproduct/product.go:19-43 | a text parses to exactly those of MIS, CNC and NRML, in this order, that one of its parts spells in any case with any blanks around it |
| ProductCodes.ParsingIgnoresCaseAndBlanks | internal/credentialproduct/product.go:24-32 | texts whose parts differ only in case and outer blanks parse alike |
| ProductCodes.NormalizedIff | internal/credentialproduct/product.go:58-83 | which lists are refused, with which error, and which codes an accepted one gives, by how its parts are spelled |
| ProductCodes.CodesAreCanonical | internal/credentialproduct/product.go:58-83 | the result is duplicate-free, in canonical order, and holds exactly the mentioned codes |
| ProductCodes.NormalizedIgnoresOrder | internal/credentialproduct/product.go:58-83 | order and repetition of the input do not matter |
| ProductCodes.JoinSplit | internal/credentialproduct/product.go:24-54 | joining undoes splitting, and the parts hold no comma |
| ProductCodes.SplitJoin | internal/credentialproduct/product.go:24-54 | splitting undoes joining when no part holds a comma |
| ProductCodes.NormalizeSettings | internal/credentialproduct/product.go:95-118 | accepted exactly for a known exchange and products within the plan; the stored text parses back; each error has its cause |
| ProductCodes.ValidateStored | internal/credentialproduct/product.go:121-141 | rejects exactly an unknown exchange or a single unknown code; never a list with a comma |
| ProductCodes.StoredAcceptedIff | internal/credentialproduct/product.go:121-141 | accepted are exactly NSE and BSE in any spelling with nothing, one code in any spelling, or anything that holds a comma |
| ProductCodes.UnknownListIsAccepted | internal/credentialproduct/product.go:130-135 | a list of two unknown codes is accepted though nothing parses from it |
| ProductCodes.ResolveOrderProduct | internal/credentialproduct/product.go:145-165 | an enabled product or the exact error; MIS when nothing is enabled |
| PaperText.NormalizeTwice | internal/store/paper_symbols.go:6-13 | normalising keys is idempotent, so a stored key matches its own request |
| PaperText.NormalizeAlikeIff | internal/store/paper_symbols.go:6-13 | two texts normalise alike if and only if they differ only in the case of letters and in blanks at the ends, and no lower-case letter is left |

## Left out

- SQL text, drivers, isolation levels and row locks: each transaction is one atomic step, and rows are records in sequences or maps.
- UUIDs are counters that never repeat; timestamps are dropped except where a deadline is compared with a given now.
- IEEE 754 rounding and the NUMERIC(18,8) columns: arithmetic is exact over reals.
- Text beyond ASCII: upper-casing and white space are those of ASCII characters.
- Several paper accounts share nothing but the sweep, so the ledger theorems are stated for one account; account creation limits, labels and deletion are not modelled.
- Equity snapshots always succeed in the model; in the code a failed snapshot is logged and skipped.
- Flattening at last price (internal/paperengine/close.go): it can be rejected by the tick check, and no law is claimed for it.
- Exposure, today's performance and diagnostics of the P&L summary: single aggregates with no further law.
- SortByCanonical: insertion on a sequence, where the code sorts a slice in place with the library's sort; only permutation and order are used.
- MarkSweep.Sweep: the writes of one sweep run together here; their interleaving with other events is in the ledger's runs, which MarkSweep.WritesAreSteps connects.
- The worker's own writes of trade status outside the handoff: a trade enters pending_confirmation once, as a new row.
- Seat limits over whole runs: raising members' status or lowering the limit is unchecked in the code, so only acceptance is bounded.
- Invite tokens, passwords, e-mail normalisation, resuming and rotating webhooks, and organization audit rows.
- DeleteUser: whether a row of some other table names the user without cascading is given with the call; those tables are not part of this model.
- Stripe signature checks and JSON decoding: an event arrives decoded or as malformed. RedeliveriesAddNothing is about deliveries without store faults; the faults are in RedeliveryAfterStoreFailureIff and RecordedWithFaultsIff.
- The dashboard, HTTP handlers, configuration, broker clients, Redis, mail and Telegram; plan limit tables, risk sizing, guard checks and credential splitting.
