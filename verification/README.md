# Verified model of the trading bot's ledgers, order handling, market data and selection

This project models, in Dafny, the parts of the bot that keep money, orders and market data consistent over
unbounded runs, and proves what they keep. Prices and money are exact reals; the clock is a parameter; ghost
history records what a component forgets. Run `dafny verify dfyconfig.toml` to check everything.

How the files fit together:

- **Paper broker.** `BrokerModel` gives each broker operation as a function on values (positions, orders, wallet).
  `BrokerProtection` and `BrokerRuns` hold the invariant "no open position without a working stop, no stop or target
  without its position", with an exact condition for each operation. `BrokerLoops` shows that ranging over a map
  while changing it gives one result for every iteration order. `BrokerCandles` is the exact condition for a candle
  to keep the invariant, whatever it fills, and `CandleExits` the exact conditions for it to come to one result in
  every iteration order, and to exit at the position's own stop. `BrokerMoney` is the ledger over any run,
  `BrokerSafety` whole runs, emergency close and the kill switch, `BrokerTrades` costs and collateral,
  `BrokerAnswers` when a tick, a candle or a close ends a position and what that pays, and `BrokerRequests` which
  requests are taken and what they open, both in plain inequalities and numbers,
  `BrokerDepartures` concrete states reached from a fresh broker in which it departs from its promises,
  `ProtectiveRace` the replacement of protective orders with other calls in between, `Rehydration` the restart and
  `Restarts` what it makes of a protected book. `PaperBroker` is the broker as a class whose methods update its
  fields and maps in place, each proved to take exactly the specified step; `Monitor` drives it.
- **Paper simulator.** `SimulatorModel` is the interleaved machine of any number of threads that fill and check,
  `SimulatorLaws` its safety, `TradeExits` when a trade leaves, at which price, and what the account makes of it,
  `Rounding` the eight-decimal grid, `FillLevels` the stop and target of a fill, `AccountPersistence` the same
  machine with the interleaved saving of the account, `Simulator` the class whose calls are runs of the machine.
- **Market data.** `CandleCache`, `OrderBook` and `TradeFlow` are classes proved against complete histories;
  `Slippage` is the book walk.
- **Scheduling, selection and sizing.** `Selection` (exchange sort), `Portfolio` (portfolio selection), `CycleModel`,
  `CallMeter` and `Scheduler` (a cycle's accounting and the daily call cap), `Sizing`, `RiskEngine` and `RiskAnswers`
  (fee-aware sizing, the order plan and what is approved), `StopDistance` and `Setups` (stop and target
  geometry of generated candidates).

Where the code does not do what it promises, the code is modelled as it is. For each departure below the first members
named state when exactly it occurs, and the last ones, after the semicolon, a concrete case:

- A refused `SetProtectiveOrders` has already cancelled the old stop (`ReplaceKeeps`; `RefusedReplacementExposes`).
- A close that comes in while `SetProtectiveOrders` has its new orders placed but not linked leaves the new stop behind,
  and a new stop that fires then leaves the new target behind (`LinkKeepsExactly`, `NewOrderFiresFirst`; from every
  protected state, `ClosedInBetweenStrands`, `StopFiresBeforeLink`, `StopFiresBeforeTarget`).
- A reduce-only MARKET or LIMIT request gets past the halt and the mandatory stop (`PlaceOnDead`, `PlaceKeeps`;
  `HaltIsNotAbsolute`).
- A limit fill on an occupied symbol loses the old position's margin for good and strands its stop, unless the candle
  crosses that stop too (`CandleKeepsExactly`, `AtCandleKeeps`, `MarginIsConserved`, `EmergencyFreesMargin`;
  `CandleStrandsStop`).
- After such a fill the iteration order of the order map can decide at which stop or target the candle closes the new
  position, and so the balance; the old stop may even close it beyond its target (`CandleOrderIndependent`,
  `StopFirst`, `StopIsNoBetter`; `CandleDependsOnOrder`, `StopBeatsTarget`).
- A reversal's collateral is checked before the old position is closed, so it may overdraw (`ReversalCollateral`;
  `ReversalOverdraws`).
- A closed position's record forgets the profit of earlier partial exits (`ClosedRecordForgets`, `EveryRunRecords`).
- A repaired stop can take the key of a persisted order (`RepairDisplacesExactly`; `RestartClobbersStop`).
- After a restart the order counter starts again behind the pending orders, so a position's link to a cancelled target
  can come to mean a new order (`ProtectedComesBack`; `LinkOutlivesTarget`, `LinkClaimsLimit`).
- A trade whose close the repository does not record is closed and counted again, and one it does not insert is counted
  and never closed (`EveryInterleavingIsExact`, `AtRestRepositoryAgrees`; `LostRecordClosesTwice`, `LostInsertCounts`).
- Two saves of the simulator's account may overtake each other, and the older one stays (`SavedExactly`;
  `OvertakenSaveIsOld`).
- A simulated fill within half a percent of its plan keeps the planned stop, on whichever side of the fill that is
  (`StopBehindExactly`; `FilledBeyondItsStop`).
- A snapshot keeps a filled level that a later empty entry at the same price should remove, while a delta does not
  (`LoadedExactly`; `EmptiedLevelLingers`).
- A book with no level on either side is reported as zero slippage, while a book with one empty side is infinite on
  that side (`InfiniteExactly`); on a crossed book a larger target can look cheaper (`MonotoneExactly`,
  `CrossedLooksCheaper`).
- A veto request without an answer, a lost write of the usage count, or a restart without a store lets a day's requests
  exceed the call cap (`CycleFitsExactly`, `NextCycleFitsExactly`, `AllInSightExactly`; `FailedRequestExceedsCap`,
  `LostCallExceedsCap`).
- The order plan's size is made again after the size, notional and margin checks, so an approved plan can be empty, below
  the minimum notional or beyond what is available (`PlanIsEmpty`, `PlanMeetsNotional`, `PlanIsPaid`;
  `EmptyPlanExample`, `SmallPlanExample`, `UnpaidPlanExample`); a short pays one fee rate more than the sizing says
  (`LossGap`).
- A long pullback's stop can be zero or negative (`PullbackStopIsAPrice`; `PullbackStopBelowZero`), and the pullback
  generator never answers when a ratio above 1.5 is asked for (`GenerateTrendPullback`).
- `maxNew <= 0` means no new position in the risk engine's selection and no limit in the scheduler's
  (`ApprovesExactly`, `NewPositionCap`).

## Model

| member | source | states |
|---|---|---|
| BrokerSafety.EveryRunIsProtected | internal/broker/paper.go:650-760 | From a fresh broker, after any run whose operations each meet their guard: every open position has, under the number it records, a pending STOP_MARKET order of its symbol and closing side, at its recorded stop, on the losing side of entry, for at least its size; every stop or target order belongs to an open position |
| BrokerSafety.StepKeepsProtection | internal/broker/paper.go:304-760 | Every operation keeps the protection invariant if and only if its guard holds; for a candle, whatever it fills and in whatever order its loops run, the guard is that every stop and target the limit fills leave without a position is a stop the candle crosses |
| BrokerSafety.RunKeepsProtection | internal/broker/paper.go:304-760 | The same over a whole run from any protected state |
| BrokerRuns.PlaceKeeps | internal/broker/paper.go:304-489 | PlaceOrder keeps every position protected if and only if the request is not a stray: a reduce-only entry without a stop that fills onto a free symbol, a reduce-only LIMIT without a stop, or a stop or target placed directly |
| BrokerRuns.PlaceMarketKeeps | internal/broker/paper.go:343-467 | The same for the MARKET branch: closing the old position, opening, protecting, or undoing the fill |
| BrokerRuns.PlaceRestingKeeps | internal/broker/paper.go:469-487 | The same for LIMIT, STOP_MARKET and TAKE_PROFIT_MARKET requests that are stored |
| BrokerRuns.OpenAtKeeps | internal/broker/paper.go:650-732 | Opening on a free symbol leaves a protected book if and only if a stop level was given; an invalid stop leaves the book as it was |
| BrokerRuns.ReplaceKeeps | internal/broker/paper.go:1194-1296 | SetProtectiveOrders keeps protection if and only if it is a no-op or its levels are valid; a refused replacement has already cancelled the old stop |
| BrokerRuns.LimitActKeeps | internal/broker/paper.go:1075-1178 | A limit fill keeps protection if and only if it is refused or lands on a free symbol; on an occupied one it strands the old stop |
| BrokerRuns.ReduceKeeps | internal/broker/paper.go:932-961 | A reduction, partial or whole, keeps every position protected |
| BrokerProtection.CloseSound | internal/broker/paper.go:749-760 | Closing a position removes its stop and target and leaves every other position guarded |
| BrokerProtection.DropSound | internal/broker/paper.go:492-505 | Cancelling an order keeps protection if and only if it is not a stop |
| BrokerProtection.OnePerKind | internal/broker/paper.go:749-760 | In a protected book two stops, or two targets, of one symbol are the same order |
| BrokerSafety.EmergencyKeeps | internal/broker/paper.go:527-568 | Since all orders are dropped first, an emergency close leaves a protected book if and only if it visits every position |
| BrokerLoops.TickOrderIndependent | internal/broker/paper.go:972-990 | Under the protection invariant UpdatePrice reaches one and the same state for every iteration order of the order map |
| CandleExits.CandleOrderIndependent | internal/broker/paper.go:606-627 | With at most one limit order of the symbol firing, ProcessCandle reaches one and the same state for all complete iteration orders of its three loops if and only if the fill does not land on an open position so that either both stops are crossed at different levels, or no stop is crossed and both targets are at different levels (fee and slippage each below 100%; agreement needs no such bound) |
| CandleExits.ContestedExactly | internal/broker/paper.go:992-1024 | From any state with a position, all complete iteration orders of the two protective loops reach one state if and only if no two stops fire at different levels and, no stop firing, no two targets do |
| CandleExits.CompletePass | internal/broker/paper.go:992-1024 | A protective loop over all orders, from any state with a position, closes it at the level of the first order that fires and removes all that fire, or does nothing |
| BrokerCandles.AtCandleKeeps | internal/broker/paper.go:606-627 | With at most one limit order firing, a candle leaves every position protected if and only if that fill is refused, lands on a free symbol, or lands on a position whose stop the candle crosses too and that has no target pending |
| BrokerLoops.LandingCandleKeeps | internal/broker/paper.go:606-627 | A candle keeps every position protected when each limit fill, at its turn, is refused or lands on a free symbol, however many fire |
| BrokerCandles.CandleKeepsExactly | internal/broker/paper.go:606-627 | For any candle with any number of limit fills and any iteration orders: every position is protected afterwards if and only if each stop or target the fills leave without a position is a stop the candle crosses |
| BrokerCandles.LimitPassClutters | internal/broker/paper.go:606-618 | Whatever a limit loop fills and wherever, every position keeps its own stop and at most the orders of replaced positions of that symbol are left over, with a stop among them |
| BrokerCandles.SettledSound | internal/broker/paper.go:992-1024 | Closing the position, at whatever level, leaves a protected book if and only if all left-over orders went with it |
| BrokerCandles.PassSettles | internal/broker/paper.go:992-1024 | A protective loop closes the position at the level of the first order to fire and removes all that fire |
| BrokerDepartures.CandleStrandsStop | internal/broker/paper.go:1075-1178 | A concrete candle on a concrete long whose limit fill strands the old stop and leaves its margin of 10 in use, whatever the iteration orders |
| BrokerDepartures.WithLimitIsReached | internal/broker/paper.go:304-489 | That state, and the one below, is reached from a fresh broker by a price, a market order and a limit order |
| BrokerDepartures.CandleDependsOnOrder | internal/broker/paper.go:992-1024 | The same long and a candle through both stops: two iteration orders that visit each order once, one losing 0.9 and one 0.4 |
| BrokerDepartures.StopBeatsTarget | internal/broker/paper.go:992-1024 | A concrete short and limit buy, and a candle that crosses the new long's stop: in one iteration order the short's stop closes the long for more than its target would |
| CandleExits.StopFirst | internal/broker/paper.go:992-1024 | With at most one limit order firing, and the stop of the position that is open after it crossed: every complete iteration order exits at that stop if and only if the fill is refused, lands on a free symbol, or the old position's stop is not crossed or at the same level |
| CandleExits.StopIsNoBetter | internal/broker/paper.go:992-1024 | Then no complete iteration order earns more than a target on the winning side of that stop would if and only if the fill is refused, lands on a free symbol, or the old stop is not crossed or is no better an exit than the target |
| CandleExits.BetterNetsMore | internal/broker/paper.go:819-864 | For both sides, an exit further on the winning side nets strictly more, when fee and slippage are each below 100% |
| BrokerLoops.WorseExitNetsLess | internal/broker/paper.go:819-864 | For both sides, an exit further on the losing side never nets more, when fee and slippage are each below 100% |
| BrokerLoops.NetForm | internal/broker/paper.go:819-864 | The net of an exit is size times entry against the price scaled by the slippage and fee factors |
| BrokerMoney.EveryRunBalances | internal/broker/paper.go:351-419 | Over any run: balance = starting balance + gross profit - fees; realized profit is the sum of nets; daily loss is what was lost since the last reset; margin in use = margins of open positions + margins overwritten by limit fills; every open position keeps margin = entry * size / leverage |
| BrokerMoney.EveryRunRecords | internal/broker/paper.go:838-860 | Over any run: realized profit is what closed positions record, plus what open ones record, plus what was forgotten; the first two alone are it if and only if nothing was forgotten |
| BrokerMoney.ClosedRecordForgets | internal/broker/paper.go:840-846 | A close forgets exactly the profit of earlier partial exits: the closed record is the position's whole profit if and only if those came to zero |
| BrokerMoney.StepLedgered | internal/broker/paper.go:304-1296 | Each operation keeps those ledger laws |
| BrokerMoney.ExitPartLedgered | internal/broker/paper.go:932-961 | A partial reduction frees margin in proportion, so the position's margin stays entry * size / leverage |
| BrokerMoney.FillLimitLedgered | internal/broker/paper.go:1075-1178 | A limit fill, also on an occupied symbol, moves the ledger as journalled |
| BrokerSafety.MarginIsConserved | internal/broker/paper.go:374-418 | After any run from a fresh broker, margin in use is the sum over open positions if and only if what limit fills overwrote comes to zero, as on every run whose limit fills land on free symbols |
| BrokerSafety.EmergencyFlattens | internal/broker/paper.go:527-568 | After an emergency close there are no positions and no orders, and the wallet is one and the same for every iteration order |
| BrokerSafety.EmergencyFreesMargin | internal/broker/paper.go:527-568 | After any run from a fresh broker, an emergency close brings the margin in use to exactly what limit fills have overwritten, so to zero if and only if that is zero |
| BrokerSafety.KillSwitchAfterAnyRun | internal/monitor/monitor.go:60-105 | From a fresh broker, after any run: halt and emergency close, then any sequence of well-formed operations; nothing is open or pending, no position ever opens again, balance, realized profit, fees and margin do not move, and the margin left in use is exactly what was overwritten |
| BrokerSafety.DeadStaysDead | internal/broker/paper.go:295-318 | A halted, flat broker stays so under any sequence of well-formed operations |
| BrokerSafety.PlaceOnDead | internal/broker/paper.go:315-323 | A request revives a halted, flat broker if and only if it gets past the early refusals, as reduce-only and stop-priced ones do, and either fills at market without an invalid stop or is a LIMIT with a positive price |
| BrokerTrades.RoundTripCost | internal/broker/paper.go:351-419 | Opening and closing at one quoted price restores positions, orders and margin, and costs both fees plus twice price * slippage * quantity |
| BrokerTrades.EntryLeavesCollateral | internal/broker/paper.go:351-418 | A market fill onto a free symbol, reduce-only or not, leaves balance - used margin >= 0, unless an invalid stop undoes it; then if and only if the fee and the immediate exit were to spare |
| BrokerTrades.LimitFillLeavesCollateral | internal/broker/paper.go:1092-1123 | A limit fill leaves it >= 0, unless its order carries no level and is closed at once; then if and only if the fee and the immediate exit were to spare |
| BrokerTrades.ReversalCollateral | internal/broker/paper.go:364-418 | A reversal leaves it >= 0 if and only if closing the old position loses no more than was spare, for the check is made before that close |
| BrokerDepartures.ReversalOverdraws | internal/broker/paper.go:364-418 | A concrete run from a fresh broker whose next reversal passes its check with 500 to spare and overdraws |
| BrokerTrades.OverwriteLosesMargin | internal/broker/paper.go:1092-1123 | An accepted limit fill on an occupied symbol, whatever levels it carries, loses exactly the margin of the position it replaces |
| BrokerTrades.ValidatedFillStays | internal/broker/paper.go:351-432 | A market fill that passed its checks is undone for an invalid stop if and only if it is reduce-only with nothing to reduce; otherwise the symbol ends open and only the replaced position is closed |
| BrokerTrades.ValidatedLimitFillStays | internal/broker/paper.go:1075-1178 | A limit fill that passed its checks stays open if and only if the order carries a stop or a target |
| BrokerDepartures.HaltIsNotAbsolute | internal/broker/paper.go:315-323 | A concrete reduce-only MARKET request that opens an unprotected position on a halted, flat broker |
| BrokerDepartures.RefusedReplacementExposes | internal/broker/paper.go:1194-1296 | A concrete refused SetProtectiveOrders that leaves a long without its stop |
| BrokerDepartures.LongIsReached | internal/broker/paper.go:304-467 | That long is reached from a fresh broker by a price and a market order |
| ProtectiveRace.UndisturbedIsOneStep | internal/broker/paper.go:1199-1293 | When no other call comes between its locked sections and order placements, SetProtectiveOrders takes the one specified step |
| ProtectiveRace.PlacedIsWaiting | internal/broker/paper.go:1202-1277 | From a protected state the new orders are placed with the rest of the book still protected and the position still open under its number |
| ProtectiveRace.LinkKeepsExactly | internal/broker/paper.go:1265-1293 | If other calls came in between and left the rest protected, linking restores protection if and only if the position is still open under the number it was copied with |
| ProtectiveRace.ClosedInBetweenStrands | internal/broker/paper.go:1235-1293 | From any protected state, a close that comes in before the link leaves the new stop without a position |
| ProtectiveRace.NewOrderFiresFirst | internal/broker/paper.go:1235-1293 | If one of the new orders fires before the link, protection holds in the end if and only if no new target was placed: the close cancels what the position is still linked to, which are the old orders |
| ProtectiveRace.StopFiresBeforeLink | internal/broker/paper.go:1235-1293 | The same from any protected state, for the new stop |
| ProtectiveRace.StopFiresBeforeTarget | internal/broker/paper.go:1235-1293 | From any protected state, a new stop that fires before the new target is placed leaves that target without a position |
| BrokerAnswers.CandleClosesExactly | internal/broker/paper.go:606-627 | From a protected state, a candle that reaches no limit order, in any complete iteration orders: it closes the symbol's position at its stop if and only if low <= stop <= high; otherwise at a pending target's level if and only if low <= level <= high; otherwise nothing but the quote changes. Closing books the exit at that level less slippage and taker fee, frees the margin and removes exactly the position's orders |
| BrokerAnswers.TickClosesExactly | internal/broker/paper.go:572-582 | From a protected state, in any complete iteration order: a tick closes a long at its price if and only if price <= stop or a pending target's level <= price, and a short if and only if price >= stop or a target's level >= price; otherwise nothing but the quote changes |
| BrokerAnswers.CloseIsAtQuote | internal/broker/paper.go:508-524 | Closing on request closes at the last positive quote, and does nothing without one |
| BrokerAnswers.EmergencyPays | internal/broker/paper.go:527-568 | The emergency close books, for every position, what it earns at its last positive quote, or at its entry price if and only if it has none; fees, slippage and freed margin likewise, and every loss adds to the day's |
| BrokerAnswers.CancelledAreGone | internal/broker/paper.go:749-760 | Cancelling a position's orders removes exactly those it is linked to, and leaves no stop or target of its symbol |
| BrokerRequests.TakenExactly | internal/broker/paper.go:304-489 | A request is accepted if and only if it is well posed and, at market, can be paid for with its stop on the losing side of the slipped fill, or has something to reduce; the order returned carries the number before the call |
| BrokerRequests.RefusedChangesNothing | internal/broker/paper.go:304-378 | A request refused before it fills changes nothing but the order counter |
| BrokerRequests.MarketOpens | internal/broker/paper.go:343-467 | An accepted market entry first closes what the symbol had, then opens at the quote moved against it: position, margin, fee, stop and target in numbers |
| BrokerRequests.MarketReduces | internal/broker/paper.go:380-400 | A reduce-only market request takes its quantity off the position, or closes it when that is all there is, and books the part's profit in proportion |
| BrokerRequests.LimitFillsExactly | internal/broker/paper.go:1064-1072 | A limit buy fills if and only if the candle's low is at its price or below, a limit sell if and only if the high is at its price or above |
| BrokerRequests.LimitAcceptedExactly | internal/broker/paper.go:1092-1110 | A limit fill is accepted if and only if margin and maker fee are covered and the order's stop is on the losing side of its price |
| BrokerRequests.LimitFillOpens | internal/broker/paper.go:1075-1178 | A limit order that fills is gone either way; accepted, it opens at its own price with the maker fee |
| BrokerRequests.ReplacesExactly | internal/broker/paper.go:1194-1296 | Without a positive stop nothing changes; otherwise replacing the levels cancels the orders the position is linked to; levels on their sides of the entry are then pending for its whole size, and any others leave it with none |
| PaperBrokers.PaperBroker.Rehydrate | internal/broker/paper.go:129-241 | A failed fetch changes nothing; otherwise it succeeds if and only if every persisted position has a valid stop and needed order updates are accepted, and a failure changes nothing but the halt. On success every position is back with a correct-side stop, margin in use is the sum of loaded margins, no LIMIT order without a stop survives, order numbers are below the counter, and with keys behind the counter every position has a pending stop, no order is lost and later keys are fresh. When every position has its pending stop nothing is repaired and the book is the loaded one; with keys behind the counter it is protected if and only if the loaded book is recoverable. On success with a persisted account, balance, realized profit, fees, slippage and daily loss are the persisted ones; without one they are unchanged; the position counter exceeds every loaded number and is not below its old value |
| Rehydration.ResumesExactly | internal/broker/paper.go:158-172 | A restart goes ahead with the positions if and only if each has a positive stop, below its entry for a long and above it for a short |
| Rehydration.LoadsTheLast | internal/broker/paper.go:174-195 | What is loaded under a key is the last persisted order with that key, or with the key made of its number when it had none, that is not a LIMIT order without a stop |
| Rehydration.LoadsNothingElse | internal/broker/paper.go:174-195 | And nothing else is loaded |
| Rehydration.UpdatesExactly | internal/broker/paper.go:178-201 | Orders are written back if and only if one had no key or is a LIMIT order without a stop |
| Rehydration.NumberedExactly | internal/broker/paper.go:154-177 | The next order number is the least one from 1 beyond all persisted ones |
| Rehydration.RepairKeepsOrders | internal/broker/paper.go:218-232 | With fresh keys, repairing a missing stop displaces no order and gives the symbol its stop |
| Rehydration.RepairDisplacesExactly | internal/broker/paper.go:218-232 | With order numbers below the counter, a repair displaces no order if and only if the keys it mints for the stop and the target are not taken |
| Rehydration.RepairCanClobber | internal/broker/paper.go:218-232 | Without that hypothesis a repair takes the place of another symbol's only stop |
| Rehydration.RestartClobbersStop | internal/broker/paper.go:203-232 | Two persisted positions and a stop persisted under the key of a later number: repairing the first position removes the second one's only stop |
| Rehydration.RepairRelinks | internal/broker/paper.go:218-232 | A repair changes order links only, and no margin |
| Rehydration.OrdersAreBack | internal/broker/paper.go:203-232 | After the repairs every symbol has a pending stop and every key still to be minted is free |
| Rehydration.RepairKeepsProspect | internal/broker/paper.go:218-232 | A repair changes neither whether the repairs will end in a protected book nor the counter they will reach |
| Restarts.RestartProtectsExactly | internal/broker/paper.go:129-241 | With keys behind the counter, a restarted broker is protected if and only if every loaded position is guarded by its linked stop, or has no pending stop and a size to be repaired for; every loaded order is in place and owned, with no stop and no superseded target at a repaired symbol; and no link is beyond the counter after the repairs |
| Restarts.ProtectedComesBack | internal/broker/paper.go:129-241 | A protected book, persisted in any order and restarted: positions and orders are the same, and it is protected again if and only if no position is linked to a target number at or beyond the new counter |
| Restarts.RunGoesOn | internal/broker/paper.go:129-241 | From there any guarded run keeps it protected |
| Restarts.BookComesBack | internal/broker/paper.go:158-195 | What a protected book persists loads as the same positions and orders |
| Restarts.LinkOutlivesTarget | internal/broker/paper.go:154-216 | A position whose target was cancelled: its broker, restarted, will issue the linked number again |
| Restarts.LinkClaimsLimit | internal/broker/paper.go:749-760 | Then the next limit order for the symbol takes that number and is cancelled with the position's close |
| PaperBrokers.PaperBroker.constructor | internal/broker/paper.go:95-108 | A new broker is the fresh state |
| PaperBrokers.PaperBroker.PlaceOrder | internal/broker/paper.go:304-489 | The request handler takes exactly the specified step, in all branches, and returns its outcome |
| PaperBrokers.PaperBroker.PlaceMarketOrder | internal/broker/paper.go:343-467 | The MARKET branch |
| PaperBrokers.PaperBroker.PlaceRestingOrder | internal/broker/paper.go:469-487 | The resting branches |
| PaperBrokers.PaperBroker.FillMarketOrder | internal/broker/paper.go:380-455 | Reduce, or close what is there and open |
| PaperBrokers.PaperBroker.ReducePosition | internal/broker/paper.go:932-961 | Close all of a position or settle a proportional part of it |
| PaperBrokers.PaperBroker.ClosePositionInternalWithOrder | internal/broker/paper.go:819-930 | Settles the exit, removes the position and its protective orders, records the closed position |
| PaperBrokers.PaperBroker.CreateProtectiveOrdersForPosition | internal/broker/paper.go:650-732 | Stop and target are stored and linked; an invalid stop closes the position; an invalid target is skipped |
| PaperBrokers.PaperBroker.CancelSiblingOrders | internal/broker/paper.go:749-760 | Ranging over the order map while deleting removes exactly the position's stop and target, in any order |
| PaperBrokers.PaperBroker.CancelOrder | internal/broker/paper.go:492-505 | Removes the order if it is there |
| PaperBrokers.PaperBroker.ClosePosition | internal/broker/paper.go:508-524 | Closes at the last price, or refuses |
| PaperBrokers.PaperBroker.EmergencyCloseAll | internal/broker/paper.go:527-568 | Ranging over positions while closing, in any order, visits every one, and takes the emergency step; EmergencyPays says at which prices |
| PaperBrokers.PaperBroker.UpdatePrice | internal/broker/paper.go:572-582 | The tick step for some iteration order that visits every order; TickClosesExactly says when that closes a position |
| PaperBrokers.PaperBroker.FillLimitOrders | internal/broker/paper.go:606-618 | The limit-fill loop of a candle, for some complete order |
| PaperBrokers.PaperBroker.FillLimitOrder | internal/broker/paper.go:1075-1178 | One limit fill with its checks, protection and emergency branches |
| PaperBrokers.PaperBroker.CheckCandleLevel | internal/broker/paper.go:992-1024 | One protective loop of a candle, and whether anything fired |
| PaperBrokers.PaperBroker.ProcessCandle | internal/broker/paper.go:606-627 | The candle step: limit fills, then stops, then targets unless a stop fired; CandleClosesExactly says when that closes a position |
| PaperBrokers.PaperBroker.SetProtectiveOrders | internal/broker/paper.go:1194-1296 | The replacement step; it succeeds if and only if there is an open position of positive size and the levels are valid for it |
| PaperBrokers.PaperBroker.ResetDailyLoss | internal/broker/paper.go:1185-1189 | The daily loss starts again |
| PaperBrokers.PaperBroker.SetHalted | internal/broker/paper.go:295-301 | The halt flag is set and stays |
| Monitors.Monitor.Update | internal/monitor/monitor.go:49-53 | After a tick the kill switch fires if and only if its threshold is reached on the state after the tick; then the broker is halted, flat and without orders, else it is the ticked state |
| Monitors.Monitor.CheckKillSwitch | internal/monitor/monitor.go:60-105 | Fires if and only if realized plus open loss reaches the configured share of equity |
| Monitors.KillDueExactly | internal/monitor/monitor.go:60-83 | It is due if and only if the share is positive and the day's realized loss, alone or with the open loss on top, is at least that share of equity |
| Monitors.Monitor.Kill | internal/monitor/monitor.go:85-93 | Halt and emergency close leave a dead broker |
| SimulatorLaws.EveryInterleavingIsExact | internal/execution/paper/simulator.go:166-404 | Over every interleaving of fills and checks on any number of threads, and whichever repository writes fail: a trade is closed again only after the repository failed to record its close; equity = loaded equity + change of realized profit - entry fees, exactly; session trades + unrecorded closes = wins + losses + still open; the losing streak is the trailing run of non-wins, plus the loaded one while there is no win |
| SimulatorLaws.AtRestRepositoryAgrees | internal/execution/paper/simulator.go:269-327 | With all threads at rest, the repository holds from this session exactly the trades the log leaves open, except those it failed to insert, which stay open for good |
| SimulatorLaws.ClosedOnce | internal/execution/paper/simulator.go:269-404 | While no record is lost, no trade is closed twice |
| SimulatorLaws.ClosedAgainIfLost | internal/execution/paper/simulator.go:393-401 | Between two closes of a trade the repository failed to record one |
| SimulatorLaws.ResultsAreClosings | internal/execution/paper/simulator.go:378-391 | Wins and losses counted are the filled trades closed for good plus the closes that were not recorded |
| SimulatorLaws.LostRecordClosesTwice | internal/execution/paper/simulator.go:393-401 | From any start: one unrecorded close, and the next check books the same profit and result again |
| SimulatorLaws.LostInsertCounts | internal/execution/paper/simulator.go:239-250 | From any start: a trade the repository refuses has its fee paid and is counted, and is never stored |
| SimulatorLaws.ChecksAreSerialized | internal/execution/paper/simulator.go:269-275 | No two threads are past the check lock at once |
| SimulatorLaws.StepSafe | internal/execution/paper/simulator.go:239-404 | Every step of every thread keeps the machine's invariant |
| SimulatorLaws.StepAccount | internal/execution/paper/simulator.go:239-404 | Every step keeps the money and counter laws |
| SimulatorModel.FeeIsOnGrid | internal/execution/paper/simulator.go:187-190 | A taker fee rounded to eight decimals is a non-negative multiple of 1e-8 |
| Rounding.RoundIsIdentity | internal/execution/paper/simulator.go:550-558 | Rounding to eight decimals is the identity if and only if the value is a multiple of 1e-8 |
| Numbers.HalvesGoAway | internal/execution/paper/simulator.go:550-558 | Rounding goes to the nearest integer, a half away from zero on either side |
| Rounding.BookingIsExact | internal/execution/paper/simulator.go:550-558 | Booking a rounded amount is exact if and only if the balance started on the grid |
| Rounding.GridSum | internal/execution/paper/simulator.go:550-558 | Sums and differences of multiples of 1e-8 are multiples of 1e-8 |
| Simulators.Simulator.SimulateFill | internal/execution/paper/simulator.go:166-264 | A usable quote is filled with the slipped price, the levels placed for it and its fee; the trade is returned if and only if the repository stores it, while the account moves either way; without a usable quote nothing changes; the call is a valid run of the interleaved machine |
| Simulators.Simulator.PlaceLevels | internal/execution/paper/simulator.go:192-223 | The levels of a fill, with the fallback target and the placement from the fill, are the specified ones |
| FillLevels.LevelsKeepDistances | internal/execution/paper/simulator.go:197-223 | A fill more than half a percent off the plan gets stop and target at the planned distances from it, to half a unit of the eighth decimal; a nearer one keeps the planned levels; the target is ahead of the planned entry |
| FillLevels.LevelsFollowFill | internal/execution/paper/simulator.go:208-223 | A fill above 1.005 or below 0.995 of the plan moves stop and target along by the difference; any other leaves both |
| FillLevels.NothingToFollow | internal/execution/paper/simulator.go:208-210 | Without a planned price, stop and target the levels stay |
| FillLevels.PlannedTargetIs | internal/execution/paper/simulator.go:192-206 | The target is the plan's first one if positive, or with a stop the entry plus twice the way from it, on the winning side |
| FillLevels.StopBehindExactly | internal/execution/paper/simulator.go:208-223 | The stop is behind the fill wherever it fills if and only if the planned stop is more than half a percent from the planned entry |
| FillLevels.FilledBeyondItsStop | internal/execution/paper/simulator.go:208-223 | A concrete long planned at 100 and filled at 99.7, below its own stop of 99.8 |
| Simulators.Simulator.CheckOpenPositions | internal/execution/paper/simulator.go:269-327 | The call is a valid run of the machine; afterwards exactly those open trades remain whose level the quotes do not reach or whose update the repository refuses; equity and realized profit have moved by exactly the sum of what the leaving trades earn, and each of this session counts once, as won if it earned something and as lost otherwise |
| TradeExits.LeavesAtItsLevel | internal/execution/paper/simulator.go:283-317 | A long leaves if and only if quote <= stop or target <= quote, a short if and only if quote >= stop or target >= quote; a reached stop is left at the stop, and only otherwise a target at the target, each moved against the trade by the slippage |
| TradeExits.ClosesAtItsLevel | internal/execution/paper/simulator.go:283-366 | With a usable quote exactly these trades are closed, and what is booked is the signed distance times quantity, to eight decimals, less a fee that is never negative, to eight decimals |
| TradeExits.StopNeverEarns | internal/execution/paper/simulator.go:329-347 | With costs, a trade that leaves at a level behind its entry never earns anything |
| TradeExits.StoppedOutIsLost | internal/execution/paper/simulator.go:378-391 | So a session trade stopped out behind its entry counts as lost |
| TradeExits.CostlessGain | internal/execution/paper/simulator.go:329-347 | Without costs a trade earns exactly the signed distance times quantity, to eight decimals |
| TradeExits.SettledIsBooked | internal/execution/paper/simulator.go:279-391 | Whatever the order of the list, the account moves by the sum of the gains, wins and losses by the number of leaving trades that earn something and that do not, and the losing streak grows by the losses when nothing is won |
| TradeExits.FillPaysMore | internal/execution/paper/simulator.go:170-190 | A fill pays the quote moved against it by the slippage, five basis points when none is set, and a fee that is never negative |
| Simulators.Simulator.CloseTrade | internal/execution/paper/simulator.go:329-391 | Books the net, the win or loss and the streak, whether or not the repository records the close; rehydrated trades move money only |
| Simulators.Simulator.GetOpen | internal/execution/paper/simulator.go:279-282 | Lists every open trade once |
| Simulators.Simulator.constructor | internal/execution/paper/simulator.go:60-104 | Starts from the persisted account, or from the starting balance when there is none |
| AccountPersistence.SavedExactly | internal/execution/paper/simulator.go:418-438 | Over any interleaving of the simulator's steps with copies, writes and failed writes on any number of threads: the stored account is the one in memory if and only if, since the copy written last was made, no trade was filled, no session trade was closed, and the closes of older trades came to zero |
| AccountPersistence.EverySaveIsExact | internal/execution/paper/simulator.go:418-438 | Whatever overlaps or fails, the stored account is the exact account of the fills and closes booked when the copy written last was made |
| AccountPersistence.OneAtATimeIsSaved | internal/execution/paper/simulator.go:418-438 | When no thread copies while another holds a copy and no write fails, the stored account is the one in memory once no thread owes a save |
| AccountPersistence.OvertakenSaveIsOld | internal/execution/paper/simulator.go:239-256 | From any start: two fills whose saves overlap, after which one trade is missing from the stored account and no save is due |
| CandleCaches.CandleCache.Update | internal/marketdata/cache.go:35-67 | After any sequence of updates the cached list of a key is strictly increasing in open time and holds the 500 latest open times of its whole last-write-wins history; malformed candles change nothing |
| CandleCaches.CandleCache.Get | internal/marketdata/cache.go:70-88 | Returns exactly the most recent suffix of that history |
| CandleCaches.CandleCache.Search | internal/marketdata/cache.go:52-54 | The binary search finds the splitting position |
| CandleCaches.CandleCache.Place | internal/marketdata/cache.go:51-67 | Insert or replace, then trim, keeps the list the recent part of the extended history |
| CandleCaches.RecentIsUnique | internal/marketdata/cache.go:35-88 | There is one such list only, so the cache is determined by its history |
| CandleCaches.UpdateShows | internal/marketdata/cache.go:51-67 | Insertion in any position with the cap of 500 shows the extended history |
| CandleCaches.SuffixIsRecent | internal/marketdata/cache.go:70-88 | A suffix of the recent list is the recent list of that length |
| CandleCaches.KeySeparates | internal/marketdata/cache.go:15-17 | Keys of different symbols or timeframes differ when symbols have no bar in them |
| OrderBooks.OrderBookStore.ApplyDelta | internal/marketdata/orderbook.go:75-117 | Applied if and only if a snapshot exists and the update number exceeds the snapshot's and every earlier delivered one; the stored book is then the last write per price of snapshot and applied deltas; a refused delta changes nothing |
| OrderBooks.OrderBookStore.Reset | internal/marketdata/orderbook.go:37-65 | A snapshot starts a new feed and the book mirrors its usable positive levels |
| OrderBooks.OrderBookStore.LoadSide | internal/marketdata/orderbook.go:48-63 | One side of a snapshot mirrors its filled entries |
| OrderBooks.LoadedExactly | internal/marketdata/orderbook.go:48-63 | It is the last write per price of the snapshot if and only if no price is filled by one entry and emptied by the last one |
| OrderBooks.LastPositive | internal/marketdata/orderbook.go:48-63 | What the loop leaves at a price is its last filled entry |
| OrderBooks.EmptiedLevelLingers | internal/marketdata/orderbook.go:48-112 | A snapshot that fills a price and then empties it keeps the fill; as a delta it leaves nothing |
| OrderBooks.OrderBookStore.WriteSide | internal/marketdata/orderbook.go:91-112 | One side of a delta: zero removes, positive overwrites, negative and unusable levels are ignored |
| OrderBooks.MirroredIsPositive | internal/marketdata/orderbook.go:37-117 | All stored prices and sizes are positive |
| OrderBooks.MirrorIsUnique | internal/marketdata/orderbook.go:37-117 | The message history determines the book |
| OrderBooks.SeenIsStale | internal/marketdata/orderbook.go:86-89 | No delivered delta, and no snapshot, is newer than the high-water mark, so redelivery is a no-op |
| OrderBooks.WriteMirrors | internal/marketdata/orderbook.go:91-112 | One level written keeps the mirror |
| OrderBooks.DeliverSnoc | internal/marketdata/orderbook.go:75-117 | One delivery extends mark and stream exactly when it is newer |
| Slippages.InfiniteExactly | internal/marketdata/orderbook.go:239-284 | On sorted positive levels, crossed or not, a positive target is estimated infinite if and only if it exceeds the side's notional and the book has a level on some side; a wholly empty book gives zero |
| Slippages.AverageOutsideMid | internal/marketdata/orderbook.go:239-284 | On a book that is not crossed, the average price lies between the best and the last touched level, on the far side of the mid |
| Slippages.AverageMonotone | internal/marketdata/orderbook.go:255-282 | A larger target never gets a better average price |
| Slippages.SlippageMonotone | internal/marketdata/orderbook.go:239-284 | On a book that is not crossed slippage does not decrease with the target, for buys and sells, including the infinite case |
| Slippages.MonotoneExactly | internal/marketdata/orderbook.go:239-284 | Slippage never decreases with the target if and only if the book is not crossed or the side has just one level |
| Slippages.CrossedLooksCheaper | internal/marketdata/orderbook.go:239-284 | On every crossed book with two levels to walk some larger target is estimated cheaper than a smaller one |
| Slippages.EstimateSlippage | internal/marketdata/orderbook.go:239-284 | On any sorted positive levels, crossed or not, the loop computes the specified estimate in all branches |
| Slippages.EstimatePricesTheFill | internal/marketdata/orderbook.go:239-284 | The estimate in money: what the target buys costs that many ten-thousandths more, or yields that many less, than the same size at the mid price |
| Slippages.MidOfBests | internal/marketdata/orderbook.go:239-253 | The mid price is halfway between the best prices, or the one best price there is |
| Slippages.Walk | internal/marketdata/orderbook.go:255-276 | The walk meets the target if and only if the depth does, with the specified size |
| Slippages.FilledBounds | internal/marketdata/orderbook.go:255-276 | Size bought times best price is at most the target, and times the last touched price at least |
| Slippages.FilledGrowth | internal/marketdata/orderbook.go:255-276 | Additional size is bought at no better than the last touched price |
| Slippages.FlattenAndSort | internal/marketdata/orderbook.go:206-225 | The sorted list holds each level once, in order |
| TradeFlows.TradeFlowStore.Add | internal/marketdata/trade_flow.go:36-53 | Appends to the history; what is pruned can count in no window from now on |
| TradeFlows.TradeFlowStore.Flow | internal/marketdata/trade_flow.go:56-103 | Every configured window's volumes, count and ratio equal those of the complete unpruned history; the last update is the history's newest or all of it is pruned; with a threshold within the retention the staleness is that of the whole history |
| TradeFlows.TradeFlowStore.Prune | internal/marketdata/trade_flow.go:42-51 | Only a prefix older than the cutoff is cut |
| TradeFlows.TradeFlowStore.SumWindow | internal/marketdata/trade_flow.go:70-90 | The loop sums the specified window |
| TradeFlows.TradeFlowStore.constructor | internal/marketdata/trade_flow.go:20-33 | The retention is the longest window |
| TradeFlows.OldPrefixCountsNothing | internal/marketdata/trade_flow.go:42-51 | Trades before the cutoff add nothing to a window that starts at it |
| TradeFlows.SummaryIsOfWindow | internal/marketdata/trade_flow.go:70-82 | A summary counts the trades no older than the window and adds up the sizes of the buys and of the others among them |
| TradeFlows.RatioBalances | internal/marketdata/trade_flow.go:83-88 | The ratio times what was sold is what was bought; with nothing sold it is infinite if anything was bought, and zero otherwise |
| TradeFlows.StalenessSurvivesPruning | internal/marketdata/trade_flow.go:60-66 | With a threshold no longer than the retention, pruning changes no verdict on staleness |
| Schedulers.Scheduler.RunOnce | internal/scheduler/scheduler.go:198-1012 | A halt, a failed screening, critically stale BTC data or no candidate ends the cycle with nothing done and the meter unmoved. In a completed cycle every candidate leaves by exactly one exit (skips + executions = candidates, as multisets); the executed ones pass every gate and none is outscored by one a limit stopped; every skip names the first gate failed; caps and the new-position limit stop no more than they must; executions stay within the ranging-adjusted limit; and the daily meter moves as one metered cycle; it completes if and only if nothing was halted, failed, stale, empty or without paper state |
| Schedulers.Scheduler.RunScreened | internal/scheduler/scheduler.go:330-1012 | The same once there are candidates |
| Schedulers.Scheduler.ApplyLLMCaps | internal/scheduler/scheduler.go:1335-1428 | Kept and dropped are a permutation; as many are kept as every positive cap allows; every kept score >= every dropped; each dropped one names a cap equal to the number kept; without caps the list is untouched |
| Schedulers.Scheduler.StrictestCap | internal/scheduler/scheduler.go:1360-1389 | The smallest positive cap and a reason that names it |
| Schedulers.Scheduler.LoadLLMUsage | internal/scheduler/scheduler.go:1430-1459 | Loads the persisted count, or rolls the date, as specified |
| Schedulers.Scheduler.TrackLLMCall | internal/scheduler/scheduler.go:1461-1482 | Rolls the date and counts one call, in memory and in the store |
| Schedulers.PreVeto | internal/scheduler/scheduler.go:400-587 | Everyone passes or leaves with the first pre-model gate failed; when the caps kept no more than the per-cycle cap, its own check never fires |
| Schedulers.Scheduler.PostVeto | internal/scheduler/scheduler.go:604-782 | Everyone is approved or leaves with the first post-model gate failed; one request per candidate put to the model, one tracked call per answer |
| Schedulers.Execute | internal/scheduler/scheduler.go:784-991 | Stable ranking, places by the ranging-adjusted limit, the rest refused for lack of a place |
| Schedulers.ExecuteFront | internal/scheduler/scheduler.go:809-991 | Only the front of the ranking is tried; exactly those behind it are refused for lack of a place |
| Schedulers.Scheduler.Process | internal/scheduler/scheduler.go:400-991 | The phases after the caps settle and meet the limits |
| Schedulers.CycleSettles | internal/scheduler/scheduler.go:400-991 | Four phases in a row account for every candidate once |
| Schedulers.CycleMeetsLimits | internal/scheduler/scheduler.go:400-991 | Counting exits by reason gives the caps and the position limit back |
| Schedulers.FrontOutscores | internal/scheduler/scheduler.go:784-827 | Nobody refused for lack of a place outscores one that was tried |
| CycleModel.AccountedCount | internal/scheduler/scheduler.go:160-170 | Accounting by multiset implies skips + executions = candidates |
| CycleModel.VerdictIsFirstStop | internal/scheduler/scheduler.go:400-991 | A candidate leaves at a gate if and only if that gate stops it and none before it does, for eleven gates given one by one |
| CycleModel.EarlyGates | internal/scheduler/scheduler.go:400-587 | The gates before the model: context, hard block, route, in this order |
| CycleModel.MiddleGates | internal/scheduler/scheduler.go:604-782 | The gates after it: failed veto, veto, book, price and risk, review, in this order |
| CycleModel.LateGates | internal/scheduler/scheduler.go:809-991 | The gates of a candidate that has a place: plan, safety, delivery, in this order |
| CycleModel.StableRankIsStable | internal/scheduler/scheduler.go:784-788 | The ranking is a descending permutation that leaves equal scores in their order |
| CycleModel.NewPositionCap | internal/scheduler/scheduler.go:789-808 | With a positive limit, at least one and at most the limit may open; the limit is met unless the market is ranging, and then one less, but at least one |
| CallMeter.EveryRunWithinCap | internal/scheduler/scheduler.go:1335-1484 | Over any run of cycles and restarts, across midnights and store failures, with a store or without, no day sees more veto requests than the cap, or than it had to begin with, plus those that got no answer or that a failed read or write or a restart hid |
| CallMeter.HealthyRunWithinCap | internal/scheduler/scheduler.go:1335-1484 | When every veto request is answered: over any run of cycles and restarts no day goes above the cap, or above what it had to begin with, when there is a store that never fails, or none and no process starts on a day that has seen requests |
| CallMeter.CycleFitsExactly | internal/scheduler/scheduler.go:1335-1484 | Whatever veto requests a cycle may make, answered or not, over a midnight or not, every day stays within the cap if and only if it opens with a count that misses none of the day's requests or with nothing left to request |
| CallMeter.NextCycleFitsExactly | internal/scheduler/scheduler.go:615-622 | With a store that never fails, after any run: the next cycle is sure to keep its day within the cap if and only if no request of that day went without an answer or nothing is left to request |
| CallMeter.RunHides | internal/scheduler/scheduler.go:615-622 | A store that never fails misses exactly the requests that got no answer |
| CallMeter.FailedRequestExceedsCap | internal/scheduler/scheduler.go:615-622 | Two requests on one day under a cap of one, with a store that never fails, the first without an answer |
| CallMeter.AllInSightExactly | internal/scheduler/scheduler.go:1430-1459 | When every request is answered: every cycle of a run opens so with a store that never fails; without one, if and only if no process starts on a day that has seen requests |
| CallMeter.RunInSight | internal/scheduler/scheduler.go:1335-1484 | A run whose cycles all open so stays within the cap |
| CallMeter.CycleKeeps | internal/scheduler/scheduler.go:342-622 | One cycle keeps that bound |
| CallMeter.TrackedKeeps | internal/scheduler/scheduler.go:1461-1484 | Room for n requests becomes room for n - 1 once an answer is tracked, on whatever day |
| CallMeter.MissedKeeps | internal/scheduler/scheduler.go:615-622 | A request without an answer uses up room and hides as much |
| CallMeter.LostCallExceedsCap | internal/scheduler/scheduler.go:1430-1482 | Two requests on one day under a cap of one, both answered: with a store after one failed write and a restart, without one after a restart |
| CallMeter.RestartIsSound | internal/scheduler/scheduler.go:1430-1459 | A process starts sound whatever the store holds, above a lowered cap too |
| Selections.ExchangeSort | internal/scheduler/scheduler.go:1397-1405 | The in-place exchange sort ranks by score and permutes |
| Portfolios.RankAndSelect | internal/risk/engine.go:343-383 | Exactly min(maxNew, passing) inputs are approved, ranked by score from 1; no passer left out outscores one approved and is refused for lack of a place; all results sit at their original positions, non-passers unchanged |
| Portfolios.PlaceInOrder | internal/risk/engine.go:364-380 | Down the ranking, the places go to the first passers; every result lands at its original position |
| Portfolios.ApprovesExactly | internal/risk/engine.go:364-380 | Exactly min(maxNew, passing) inputs are approved, none when maxNew <= 0 |
| Portfolios.BestScoresWin | internal/risk/engine.go:364-380 | No passer without a place outscores one with a place; ranks follow scores and run from 1 to the number approved |
| Portfolios.PositionsSurvive | internal/risk/engine.go:350-362 | Sorting neither loses nor repeats an original position |
| RiskEngines.ValidateCandidate | internal/risk/engine.go:508-783 | Approved if and only if nothing objects; the reasons are exactly the objections that hold; the plan carries the specified prices, size, margin, fees and targets |
| RiskAnswers.ApprovedExactly | internal/risk/engine.go:594-746 | Past the early exits a candidate is approved if and only if: stop, entry and targets are in order and the ratio enough; size, notional and margin meet lot, minimum and 95% of what is available; the rounded stop keeps 0.3%, 0.5%, 1% or 1.5% away by price; fewer positions are open than allowed, or the score is 85; and no halt or cooldown holds |
| RiskAnswers.SizedExactly | internal/risk/engine.go:516-582 | The early exits: equity, entry and stop positive, entry and stop apart, risk at least the minimum |
| RiskAnswers.SizedFromRisk | internal/risk/engine.go:572-590 | The size is what, before rounding to lots, loses the risk percentage of equity with the fees of one unit |
| RiskAnswers.UnitCost | internal/risk/engine.go:584-588 | A unit costs its distance and two taker fees on the entry price |
| RiskAnswers.EachModifierCuts | internal/risk/engine.go:527-550 | Each modifier takes 50%, 30% or 40% off what the others leave, the last two for longs only; without any the risk is the smaller of base and maximum |
| RiskAnswers.RiskIsShare | internal/risk/engine.go:572 | The amount at risk is the risk percentage of equity |
| RiskAnswers.PlanFees | internal/risk/engine.go:757-773 | Its fees are those of a trade of its notional |
| RiskAnswers.FeesAddUp | internal/risk/engine.go:757-758 | The fees of a trade are two taker fees on its notional, in basis points |
| RiskAnswers.MarginTimesLeverage | internal/risk/engine.go:592 | The margin, leveraged, is the notional |
| RiskAnswers.TargetShare | internal/risk/engine.go:748-755 | A target's quantity is its percentage of the size, to half a lot |
| RiskAnswers.DistanceIsKept | internal/risk/engine.go:681-696 | The price tiers of the rounded stop's distance, in products |
| RiskAnswers.GeneratedDistanceSuffices | internal/strategy/setup.go:456-475 | The percentage the strategies keep a stop away meets the risk engine's tier if and only if the price is below 100 or at least 0.3 is configured |
| RiskAnswers.GeneratedRatioSuffices | internal/strategy/trend_pullback.go:249-252 | The ratio the strategies ask for, configured or by default, is the risk engine's |
| RiskAnswers.OpenCountIs | internal/risk/engine.go:698-704 | The loop counts the set of open positions |
| RiskAnswers.AltLongCountIs | internal/risk/engine.go:710-716 | The loop counts the set of open altcoin longs |
| RiskEngines.ApprovedLossIsBounded | internal/risk/engine.go:580-592 | A stop-out of an approved plan, with both taker fees, loses at most the risk amount plus half a lot's worth of risk and fees; for a short, one fee rate more |
| RiskEngines.ApprovedRiskInRange | internal/risk/engine.go:527-560 | The risk used lies between the minimum and the smaller of base and maximum after all modifiers |
| RiskEngines.ApprovedStopIsSet | internal/risk/engine.go:657-696 | The rounded stop is strictly on the losing side and at least the price tier's distance away; the one exception is a short whose entry rounds to zero |
| RiskEngines.PlanIsEmpty | internal/risk/engine.go:649-668 | The size is checked before rounding: a plan in lots, approved or not, has size zero if and only if its risk amount buys less than half a lot at the rounded distance |
| RiskEngines.PlanMeetsNotional | internal/risk/engine.go:649-668 | So is the notional: a plan meets the minimum if and only if what the risk amount buys at the rounded distance is no more than half a lot short of the lots that reach it |
| RiskEngines.PlanIsPaid | internal/risk/engine.go:640-668 | So is the margin: a plan's fits 95% of what is available if and only if what is bought is less than half a lot beyond the lots that pays |
| RiskEngines.OnTickPlanIsTradable | internal/risk/engine.go:640-668 | When entry and stop already lie on ticks, an approved plan holds at least a lot, meets the minimum notional, and its margin fits 95% of what is available |
| RiskEngines.EmptyPlanExample | internal/risk/engine.go:649-668 | A concrete approved plan of size zero |
| RiskEngines.SmallPlanExample | internal/risk/engine.go:649-668 | A concrete approved plan of notional 500 where 600 is the minimum |
| RiskEngines.UnpaidPlanExample | internal/risk/engine.go:640-668 | A concrete approved plan whose margin exceeds all that is available |
| RiskEngines.PriceObjections | internal/risk/engine.go:594-637 | The objections to the candidate's own prices |
| RiskEngines.PortfolioObjections | internal/risk/engine.go:698-720 | The counts of open and of correlated positions against their limits, with the high-score override |
| RiskEngines.PlanTargets | internal/risk/engine.go:748-755 | Every target in ticks and lots |
| RiskEngines.SizeableInput | internal/risk/engine.go:515-592 | Past the early exits all quantities are defined and positive |
| Sizing.WithDefaults | internal/app/config.go:858-893 | All effective limits are positive |
| Sizing.SetLimitsStay | internal/app/config.go:858-893 | A limit that is set stays as it is, and filling in defaults twice is the same as once |
| Sizing.NoLimitsSet | internal/app/config.go:858-893 | The defaults in numbers |
| Sizing.LeverageIsGreatest | internal/risk/engine.go:563-570 | The plan uses the greatest leverage within the preferred one, the configured limit and the symbol's limit |
| Sizing.ModifiersOnlyReduce | internal/risk/engine.go:527-552 | Modifiers keep the risk between 21% of the capped base and the capped base, and leave it alone exactly when none applies |
| Sizing.SizeMeetsRisk | internal/risk/engine.go:583-590 | Size times risk and fees per unit is the risk amount, give or take half a lot's worth |
| Sizing.LongStopOutIsBounded | internal/risk/engine.go:583-590 | The loss bound for longs |
| Sizing.ShortStopOutIsBounded | internal/risk/engine.go:583-590 | The loss bound for shorts |
| Sizing.LossGap | internal/risk/engine.go:583-590 | The loss misses the sized one by exactly the fee on the distance, charged at the stop but sized at the entry |
| Sizing.TargetIsMet | internal/risk/engine.go:583-590 | Without lots, a stop-out loses exactly the risk amount if and only if there is no fee |
| Sizing.RoundToIsNear | internal/risk/engine.go:795-807 | Rounding moves a value by at most half a step, and not at all without a step |
| Sizing.RoundToVanishes | internal/risk/engine.go:795-807 | A value rounds to zero if and only if it is below half a step, and otherwise to at least one step |
| Sizing.RoundToReaches | internal/risk/engine.go:795-807 | A value rounds to a bound or beyond if and only if it is at most half a step short of the fewest steps that reach it |
| Sizing.RoundToStaysWithin | internal/risk/engine.go:795-807 | A value rounds to within a bound if and only if it is less than half a step beyond the most steps within it |
| StopDistance.QualityStopMultiplier | internal/strategy/setup.go:401-420 | The multiplier stays between its base and 3 for bases up to 3; for larger bases it is 3, below the documented range |
| StopDistance.WorseSignalWiderStop | internal/strategy/setup.go:405-420 | A worse signal in any respect never brings the stop closer |
| StopDistance.EachSignWidens | internal/strategy/setup.go:405-420 | Few trades, an ATR above 3% and thin volume widen the stop by 1.5, 1.5 and 1.3, on top of one another, up to 3 |
| StopDistance.PriceAwareMinSLPct | internal/strategy/setup.go:456-475 | The least percentage that is no less than the configured one and, for prices below 100, 10 and 1, than 0.5, 1 and 1.5; off when the configured one is |
| StopDistance.EnforceMinSLDistance | internal/strategy/setup.go:486-528 | The stop ends at least the floor away, never closer than it was, unmoved when far enough, and on its own side |
| StopDistance.FloorIsLeast | internal/strategy/setup.go:505-508 | The floor is the least distance that is at once the percentage of the price and the multiple of the ATR |
| StopDistance.PullbackStop | internal/strategy/trend_pullback.go:176-189 | The stop is on the losing side, at the swing if that is a price at least the reach away, and otherwise exactly the reach away |
| StopDistance.BreakoutStop | internal/strategy/breakout_retest.go:115-127 | The stop is on the losing side: the outer of the retest and the level's reach if either is behind the entry, and otherwise the reach from the entry |
| StopDistance.PullbackStopIsAPrice | internal/strategy/trend_pullback.go:176-191 | A long pullback's stop is positive if and only if the entry exceeds both reach and floor; nothing else guards it |
| Setups.PullbackStopBelowZero | internal/strategy/trend_pullback.go:176-191 | A concrete long pullback whose stop is half a unit below zero and that nothing refuses |
| Setups.GenerateTrendPullback | internal/strategy/trend_pullback.go:165-269 | Every candidate has stop, entry and targets in order, reward ratio at least the one asked for, stop at least floor and tick away, first target the nearest level within 1.5 risks that pays enough or else 1.5 risks; past the filters it is generated if and only if the stop is a tick away and the ratio asked for is at most 1.5 |
| Setups.PullbackLevels | internal/strategy/trend_pullback.go:165-191 | The entry is the close of a fresh reaction or a tick off the extreme; with a calm signal and no floor the stop is at the swing if that is one and a half ATRs away, and otherwise just that far |
| Setups.GenerateBreakoutRetest | internal/strategy/breakout_retest.go:104-210 | The same order, ratio and distances; a long's stop is positive; the refusals for distance and stop are exactly those |
| Setups.BreakoutLevels | internal/strategy/breakout_retest.go:104-127 | The entry is the close within 0.4 ATRs of the level or a tick beyond it; with a calm signal and no floor the stop is behind the retest and half an ATR behind the level |
| Setups.PullbackTargets | internal/strategy/trend_pullback.go:205-226 | First target the nearest level or 1.5 risks, second the next level beyond it or 2.5 risks |
| Setups.MeetRatio | internal/strategy/trend_pullback.go:254-269 | A first target that pays too little gives way to 1.5 risks, and then exactly a demand above 1.5 fails |
| Setups.BreakoutTarget | internal/strategy/breakout_retest.go:143-166 | The nearest level, or the projected move, or 1.5 risks, always beyond the entry |
| Setups.LatestSwing | internal/strategy/trend_pullback.go:481-495 | The price of the last swing of the side's kind, or 0 |
| Setups.NearestAbove | internal/strategy/trend_pullback.go:504-512 | The nearest level above, 0 for none, exact unless a level of 0 meets a negative price |
| Setups.NearestBelow | internal/strategy/trend_pullback.go:528-536 | The nearest level below, 0 for none, exact when no level is 0 |
| Setups.NextAbove | internal/strategy/trend_pullback.go:514-526 | The least level above, 0 for none |
| Setups.NextBelow | internal/strategy/trend_pullback.go:538-550 | The greatest level below, 0 for none |
| Setups.CloserTarget | internal/strategy/trend_pullback.go:552-570 | A level is taken only when beyond the entry and nearer than the fallback |
| Setups.RatioAtMost | internal/strategy/trend_pullback.go:254-269 | A target within 1.5 risks pays at most 1.5 |

## Left out

- Database, HTTP and WebSocket clients, Telegram, the command line, configuration files, JSON, logging and alerts; the broker's repositories are absent except as the inputs of `Rehydrate`, so renumbering with database identifiers is not modelled.
- Float NaN, infinity and rounding error: money and prices are exact reals, apart from the simulator's eight decimals, ticks and lots, which are explicit; order-book price strings are taken as the prices they print.
- Sharing of position and order objects: the broker's maps hold values, so a reference kept by a caller is not followed.
- Unrealized profit, equity and account reporting of the broker, timestamps, and the status of orders already removed.
- Monitors.Monitor.Update: the broker's open profit, which the code adds up from the positions at their last ticks, is an arbitrary number here; what is proved holds for every value of it.
- Monitors.Monitor.CheckKillSwitch: the same.
- Monitor.CheckAllPositions and the scheduler's run loop with its concurrent-call guard; a cycle's daily reset and universe refresh.
- CandleExits.CandleOrderIndependent: for a candle on which several limit orders of the symbol fire, which of them are accepted can depend on the order in which they come up; `ContestedExactly` then speaks of the protective loops only.
- PaperBrokers.PaperBroker.SetProtectiveOrders: one atomic step; `ProtectiveRace` says what calls in between can do to it.
- Simulators.Simulator.SimulateFill: leverage, decision identifiers and R-multiples are not modelled.
- Simulator: CancelOpenPositions and SetConsecutiveLosses.
- SimulatorLaws.EveryInterleavingIsExact: assumes that nothing is cancelled concurrently and that equity starts on a multiple of 1e-8, as the code needs; a repository write either happens or does not.
- CallMeter.EveryRunWithinCap: a request without an answer is dated by the next reading of the clock; the retries inside one request and the calls of the review after the risk check (`internal/scheduler/scheduler.go:1554-1603`), which the code never counts, are not requests here.
- Candle cache: last-update queries and the price cache; order book: staleness and the summary's spread and depth.
- Portfolios.RankAndSelect: the single-candidate `Validate` is an arbitrary function of the input.
- Schedulers.Scheduler.RunOnce: the screener, hard blocks, routing, model veto and review, risk validation, safety and delivery are arbitrary answers per candidate; persistence, decision logs and counterfactual tracking are not modelled; skips hold the candidate where the code keeps its symbol.
- RiskEngines.ValidateCandidate: the list of modifier names and the version string of the result are not modelled.
- Setups.GenerateTrendPullback: trend, pullback, reaction, momentum and volume filters are one verdict; the pullback range, swings, levels and indicator values are inputs, as are the identifiers and texts of the candidate.
- Setups.GenerateBreakoutRetest: the broken level, the prior level and the retest extreme are inputs; the searches for them would add threshold tests only.
- Indicators, regime detection, scoring, routing rules, the watchlist and the reports: threshold tables and presentation.
