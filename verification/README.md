# Verification of the trading desk

A Dafny model of the trading desk's decision and bookkeeping code, with proofs about whole runs of it.

* **Trade pipeline** (`Ledger`, `Risk`, `Coordinator`, `LedgerStore`, `Desk`, `Auditor`, `KillSwitch`,
  `Orchestrator`, `Lifetime`): a per-bot balance sheet, the halt and risk gates, the broker, persistence, the tick
  loop and the auditor. The model follows fills from the broker's report into the ledger, and proves conservation of
  money, agreement with the broker, drawdown and exposure bounds, what a halt guarantees, and what survives a
  crash.
* **Strategy supervisor** (`Supervisor`): stream records turned into changes of ECS services, under at-least-once
  delivery.
* **Market data** (`MarketData`, `MarketReaders`): the buffered minute-bar writer and its two readers.
* **Indicators** (`Indicators`) and **wake-up predicates** (`Tta`).
* **Counters and flags** (`HaltStore`, `ToolQuota`, `News`).

## How the model is built

Each object that updates fields is a class whose methods are proved equal to a transition function on values
(`RecordFill` and `AfterFill`, `Execute` and `AfterIntent`, `Tick` and `AfterTick`). The theorems are then about runs
of those functions, for every input and every answer of the outside world. `Decimal` is `real`, so all arithmetic is
exact. A DynamoDB table is a map, an atomic `ADD` is one step. Broker replies, quotes, clocks, failing reads and
writes, and the bots' decisions are parameters: `World` for one call of the coordinator, `TickWorld` for one tick.
Exceptions are outcomes. What such a function computes is also said without naming it or its helpers, in the amounts,
prices and indices of the input (`SellRealizes`, `CallRecordsReply`, `StoredBarSays`, `EmaOfRamp`,
`RsiFollowsDirection`, `ComparisonMeans` and others). A broker stands for the account its credentials open; orgs may
share accounts, and each call is routed to whichever account serves its org.

Some properties one would expect are false of the code. For these the exact condition is proved:

* The exposure limit is safe against every fill if and only if the symbol has a quote, and the quote is not
  negative unless the exposure was already within the limit (`ExposureBoundIff`). The position limit bounds one
  order: the position stays within it if and only if it had room for the whole order (`PositionBoundIff`).
* Ledgers and broker accounts stay in agreement if and only if no sell fill exceeds the bot's own holding; the
  program notices an oversell only after the broker has filled it (`AgreementKeptIff`). Before the call:
  if and only if it is not a sell beyond the holding that nothing stops (`OversellBreaksAgreementIff`).
* The auditor compares all ledgers with one account. On a desk that agrees with its brokers it never fails if and
  only if the accounts it is not shown are flat at every audit (`NoFalseAlarmIff`).
* A snapshot reloads as the same ledger for every history if and only if the starting capital is not negative
  (`RoundTripIff`); between calls it equals the ledger in memory if and only if no fill was attempted since it was
  saved, which where saves succeed means refused (`SnapshotEqualsMemoryIff`).
* A stored bar is the group-by-minute bar if and only if no flush, and no tick of another minute, came between
  two ticks of the minute (`StoredIsGroupIffOnePiece`), and all ticks are kept if and only if that holds of every
  minute (`TicksAreKeptIff`); a flush at every poll breaks this.
* Two hour rows hold the newest fresh bar if and only if the staleness threshold is below 3601 seconds
  (`TwoRowsSufficeIff`).
* The fees an audit takes as recorded are those of the accepted fills if and only if those of the refused ones add
  up to zero (`RecordedFeesIff`).
* Crossings up minus crossings down is the net change of side if and only if landings on the threshold from above
  match departures from it downwards (`NetCrossingsIffBalanced`).
* The single-pass MACD is the textbook one, where that is defined, if and only if the fast period does not exceed
  the slow one (`PassIsExactIffFastNotSlower`).
* Services converge to the strategy table under failing ECS calls if and only if enough of each strategy's own
  decisions got through, as errors are caught and not retried (`ConvergesIff`).
* A kill switch sets its halt if and only if it has a default broker for what it has to sell and none of its orders
  raises or is filled beyond the position (`HaltIsSetIff`). Its sales are never saved: snapshots that were up to
  date stay so if and only if no bot with a snapshot trades in its turn (`SalesAreSavedIff`). Agreement with the
  brokers survives it if and only if no order it gets to is filled beyond its position (`VerbKeepsAgreementIff`).
* A desk halt stands over a run of ticks if and only if no tick reads a cleared flag (`DeskHaltStandsIff`). With a
  publisher whose flag is always readable the auditor changes nothing any bot does (`AuditorIsPowerless`), because
  the next tick overwrites its halt; without a publisher it freezes the desk on schedule (`DriftFreezesDesk`).

A crossing on a ledger field never fires (`OnlyPricesCross`): `engine.py` documents a context of prices and ledger
state, but keeps only the prices for the next tick. The code is followed.

## Model

| member | source | states |
|---|---|---|
| LedgerModel.Ledger.RecordFill | src/trading_strands/ledger/models.py:154-166 | The method in place is the transition `AfterFill`, histories grown first even if it raises; a sell takes out at most the first position in its symbol and touches no later one |
| LedgerModel.Ledger.HandleBuy | src/trading_strands/ledger/models.py:168-180 | Opens a position or averages the burdened cost into the existing one; division by zero is an outcome |
| LedgerModel.Ledger.HandleSell | src/trading_strands/ledger/models.py:182-201 | Realizes PnL, shrinks or removes the position, or raises and changes nothing |
| LedgerModel.Ledger.constructor | src/trading_strands/ledger/models.py:109-121 | A new ledger has its starting capital as high-water mark |
| LedgerModel.Ledger.Restore | src/trading_strands/ledger/models.py:109-121 | A ledger rebuilt from a stored value has its books, histories and fresh position objects; a zero mark is taken for unset |
| LedgerModel.AverageKeepsCost | src/trading_strands/ledger/models.py:168-180 | Averaging adds exactly the burdened cost of the fill to the position's book value |
| LedgerModel.BurdenedIsCash | src/trading_strands/ledger/models.py:69-83 | Price times quantity with the nine fees, written out: added on a buy, taken off on a sell |
| LedgerModel.SellRealizes | src/trading_strands/ledger/models.py:182-201 | An accepted sell realizes price times quantity less its fees and less the basis of the shares sold; the rest keeps its basis |
| LedgerModel.BuyAverages | src/trading_strands/ledger/models.py:168-180 | An accepted buy realizes nothing and puts its cash, fees included, into the book value of its position |
| LedgerModel.FillConservesMoney | src/trading_strands/ledger/models.py:154-201 | One accepted fill moves money between cash, price times quantity with the nine fees written out, and book value, and creates none |
| LedgerModel.MoneyIsConserved | src/trading_strands/ledger/models.py:154-201 | Over any run, realized PnL is net cash of the accepted fills, prices and fees written out, plus the cost of what is still open, and equity is that on top of the capital; no assumption on the fills |
| LedgerModel.OrderOfFillsIsIrrelevant | src/trading_strands/ledger/models.py:154-201 | Two runs with the same accepted fills in any order hold the same shares and, when flat, have the same PnL |
| LedgerModel.ReplayAccepted | src/trading_strands/ledger/models.py:154-166 | The history keeps every attempted fill; the fee ledger keeps their fees; replaying only the accepted ones gives the same books and accepts them all |
| LedgerModel.SellsNeedShares | src/trading_strands/ledger/models.py:184-189 | A positive fill is accepted exactly when it buys or sells no more than is held; a refusal says whether nothing or too little is held |
| LedgerModel.FillMovesShares | src/trading_strands/ledger/models.py:154-201 | An accepted fill moves its own symbol by its own quantity and no other symbol |
| LedgerModel.FillKeepsWellFormed | src/trading_strands/ledger/models.py:168-201 | One open position per symbol, each positive, is kept by every positive fill |
| LedgerModel.PositionsAreNetShares | src/trading_strands/ledger/models.py:154-201 | Over any run of positive fills the quantity held of a symbol is accepted buys minus accepted sells |
| LedgerModel.MarkIsPeak | src/trading_strands/ledger/models.py:164-166 | The high-water mark is the largest equity the run has ever had, and was reached |
| Risk.DrawdownCheckMeans | src/trading_strands/risk/manager.py:89-95 | The drawdown ratio test, multiplied out for a zero, positive and negative mark |
| Risk.ApprovedBuyMeans | src/trading_strands/risk/manager.py:58-135 | A buy is approved exactly when nothing is halted and all four limits hold as inequalities between amounts |
| Risk.RefusalNamesFirstFailure | src/trading_strands/risk/manager.py:58-135 | A refused buy is told the first check it fails, in the order of the program, each check an inequality between amounts |
| Risk.NoBuyWithoutEquity | src/trading_strands/risk/manager.py:89-105 | With a positive mark and a limit below 100% no buy passes at zero or negative equity |
| Risk.BuyAddsExposure | src/trading_strands/risk/manager.py:118-135 | What an accepted buy fill adds to the exposure, priced or unpriced |
| Risk.ExposureBoundSurvivesFill | src/trading_strands/risk/manager.py:107-135 | After any fill of at most the ordered quantity the exposure at the same prices is within the limit |
| Risk.ExposureBoundIff | src/trading_strands/risk/manager.py:107-135 | The exact condition under which every such fill keeps the limit |
| Risk.PositionBoundIff | src/trading_strands/risk/manager.py:107-116 | After any fill of the order the whole position is within the position limit exactly when it had room for the order (at a negative quote: as it was); never certain for an unquoted symbol |
| Risk.PositionLimitIsPerOrder | src/trading_strands/risk/manager.py:107-116 | The witness: a second order that passes the check although the position then holds twice the limit |
| LedgerPersistence.LedgerStore.RecordAndPersist | src/trading_strands/ledger_store/store.py:129-153 | Apply, append, save, in place: a refused fill writes nothing, a failed append does not stop the save |
| LedgerPersistence.LedgerStore.AppendEvent | src/trading_strands/ledger_store/store.py:81-103 | Appends one event or fails and changes nothing |
| LedgerPersistence.LedgerStore.SaveSnapshot | src/trading_strands/ledger_store/store.py:47-64 | Overwrites the bot's snapshot with the whole ledger or fails and changes nothing |
| LedgerPersistence.LedgerStore.LoadSnapshot | src/trading_strands/ledger_store/store.py:66-79 | The stored ledger as a new object sharing nothing with the old one, or nothing if none is stored |
| LedgerPersistence.RoundTripIff | src/trading_strands/ledger_store/store.py:47-79 | Loading gives back the saved ledger for every history exactly when the starting capital is not negative |
| LedgerPersistence.CallIsThreeSteps | src/trading_strands/ledger_store/store.py:129-153 | The crash-step machine run without a crash is the call, whatever fails |
| LedgerPersistence.CallWritesItsBot | src/trading_strands/ledger_store/store.py:129-153 | What a call writes, for which bot, and which exception comes out when one write or both fail |
| LedgerPersistence.SnapshotIsAlwaysAPrefix | src/trading_strands/ledger_store/store.py:129-153 | Under any failures and crashes the stored snapshot is the ledger after a prefix of the attempted fills, and a restart resumes there |
| LedgerPersistence.LagIsAtMostOneFill | src/trading_strands/ledger_store/store.py:129-153 | Without failed saves the snapshot lacks at most the fill in progress, and between calls has the books of memory |
| LedgerPersistence.SnapshotEqualsMemoryIff | src/trading_strands/ledger_store/store.py:129-153 | Between calls a restart gives back the whole memory exactly when no fill was attempted since the last save or restart; where saves succeed, exactly when none was refused since |
| LedgerPersistence.LoggedFillIsRecoverable | src/trading_strands/ledger_store/store.py:129-153 | A fill lost by a crash between append and save is the last event, and settling it restores the books |
| LedgerPersistence.LogIsComplete | src/trading_strands/ledger_store/store.py:129-153 | Without failed appends or a crash before one, the log is every accepted fill in order |
| HaltControl.HaltStore.SetOrgHalt | src/trading_strands/halt/store.py:123-144 | Writes the org's row, and a log row exactly when the flag changes |
| HaltControl.HaltStore.SetSystemHalt | src/trading_strands/halt/store.py:164-178 | The same for the system row |
| HaltControl.HaltStore.RecordTransition | src/trading_strands/halt/store.py:94-121 | Appends one log row |
| HaltControl.KeysAreDistinct | src/trading_strands/halt/store.py:23-24 | No two scopes share a key, whatever the org ids |
| HaltControl.WriteIsLocal | src/trading_strands/halt/store.py:123-194 | A write changes state and log of its own scope only |
| HaltControl.LogIsFaithful | src/trading_strands/halt/store.py:94-194 | Each scope's log strictly alternates from halted, and its last entry is the stored flag |
| HaltControl.EffectiveIsOrOfLastTransitions | src/trading_strands/halt/store.py:196-200 | What stops an org is the last transition of the system or of that org |
| HaltControl.StateIsLastWrite | src/trading_strands/halt/store.py:123-194 | A scope's state is what its own last write said, whatever was written to the others since |
| HaltControl.SystemReasonWins | src/trading_strands/halt/store.py:202-215 | While the system is halted its reason is the one reported |
| HaltControl.OrgReasonOtherwise | src/trading_strands/halt/store.py:202-215 | Otherwise the reason is the one of the org, if it is halted |
| HaltControl.LogRowSays | src/trading_strands/halt/store.py:94-121 | Over any writes, the row that one of them logs, field by field, and that one which changes nothing logs none |
| Coordination.TradeCoordinator.Execute | src/trading_strands/coordinator/coordinator.py:145-307 | The whole pipeline in place is `AfterIntent` on the desk with all its broker accounts; only the intent's own ledger and the account that serves its org are touched |
| Coordination.TradeCoordinator.Route | src/trading_strands/coordinator/coordinator.py:226-307 | Past the halt gate: no broker is a refusal, else the trade |
| Coordination.TradeCoordinator.TradeThrough | src/trading_strands/coordinator/coordinator.py:248-307 | Prices, risk decision, order and fill, in that order, with every early exit |
| Coordination.TradeCoordinator.SubmitThrough | src/trading_strands/coordinator/coordinator.py:269-294 | An order moves the account of its broker and no other account |
| Coordination.TradeCoordinator.RecordForBot | src/trading_strands/coordinator/coordinator.py:340-364 | Recording in one bot's ledger leaves every other ledger as it was, on shared heap |
| Coordination.TradeCoordinator.RecordFill | src/trading_strands/coordinator/coordinator.py:340-364 | Only a positive filled quantity is recorded, through the store when there is one |
| Coordination.TradeCoordinator.GetMarketPrices | src/trading_strands/coordinator/coordinator.py:309-329 | The loop collects all prices that are numbers; one raising quote raises |
| Coordination.TradeCoordinator.BrokerFor | src/trading_strands/coordinator/coordinator.py:119-137 | The cached broker, or a new one from the factory, cached; a factory that raises leaves the cache alone |
| DeskRuns.CallSettlesReport | src/trading_strands/coordinator/coordinator.py:145-307 | A call records exactly the fill the broker reported in the ledger of its own bot, histories included, and nothing else |
| DeskRuns.AccountMovesByReport | src/trading_strands/coordinator/coordinator.py:145-307 | The account that serves the call moves by that fill and logs an order exactly when one is submitted; every other account stays as it is |
| DeskRuns.SubmittedOrderWasApproved | src/trading_strands/coordinator/coordinator.py:196-268 | An order goes out only for a bot that is not halted, past an open or unreadable halt gate, approved at prices of this call |
| DeskRuns.CallGetsThisFar | src/trading_strands/coordinator/coordinator.py:145-307 | For every way a call can end before the broker, exactly when it does; it submits in all other cases and no others |
| DeskRuns.CallRecordsReply | src/trading_strands/coordinator/coordinator.py:340-364 | A positive reply is recorded with its own quantity, price and fees, for the symbol and side of the intent; any other leaves the ledger alone |
| DeskRuns.CallReachesBroker | src/trading_strands/coordinator/coordinator.py:331-338 | The order sent has the symbol, side and quantity of the intent, and the account moves by what was filled |
| DeskRuns.PricesAreQuotes | src/trading_strands/coordinator/coordinator.py:309-329 | An intent is judged by the quotes of its own symbol and of every symbol held, no more and no fewer |
| DeskRuns.StoredHaltSaysWhy | src/trading_strands/coordinator/coordinator.py:196-224 | A stored halt refuses with the reason of the halt, or that there is one |
| DeskRuns.LedgersAreRuns | src/trading_strands/coordinator/coordinator.py:340-364 | After any run every ledger, histories included, is a run of its own positive reported fills |
| DeskRuns.DeskConservesMoney | src/trading_strands/coordinator/coordinator.py:340-364 | Conservation of money for every bot over any run of the pipeline |
| DeskRuns.MarkIsPeakOfDesk | src/trading_strands/ledger/models.py:164-166 | Over any run of the pipeline the mark is the bot's peak equity |
| DeskRuns.BuysRespectDrawdown | src/trading_strands/risk/manager.py:89-95 | A buy is submitted only at an equity of at least (1 - max_drawdown_pct) times the all-time peak |
| DeskRuns.SubmittedBuyIsAboveFloor | src/trading_strands/risk/manager.py:89-95 | The same for any desk whose ledger is a run of fills from books at their peak |
| DeskRuns.BuyKeepsExposureLimit | src/trading_strands/risk/manager.py:107-135 | The exposure limit across gate, broker and ledger, for one whole call |
| DeskRuns.HaltedBotIsFrozen | src/trading_strands/risk/manager.py:76-80 | A halted bot submits nothing and keeps its ledger over any run until unhalted |
| DeskRuns.StoredHaltHolds | src/trading_strands/coordinator/coordinator.py:192-224 | Over any run, under a stored halt of the org or the system no call of the org whose halt read succeeds submits anything or changes the desk |
| DeskRuns.CoveredMeansNoRaise | src/trading_strands/ledger/models.py:184-189 | The ledger raises exactly on a sell fill beyond the bot's own holding |
| DeskRuns.AgreementKeptIff | src/trading_strands/auditor/reconciler.py:57-95 | A call keeps agreement between all ledgers and all accounts exactly when its fill is covered, however it was routed |
| DeskRuns.OversellBreaksAgreementIff | src/trading_strands/risk/manager.py:82-84 | Decided before the call: against fills of at most the order, agreement survives every answer exactly when the call is not a sell beyond the holding that no halt, gate, missing broker or raising quote stops |
| DeskRuns.AgreementOverRuns | src/trading_strands/auditor/reconciler.py:57-95 | Agreement and one positive position per symbol over whole runs of covered fills |
| DeskRuns.AuditPassesIffOthersFlat | src/trading_strands/auditor/reconciler.py:57-95 | Shown one account, the auditor passes on an agreeing desk exactly when the other accounts are flat over all; if they are, it passes exactly when desk and brokers agree |
| DeskRuns.SnapshotsStayCurrent | src/trading_strands/ledger_store/store.py:129-153 | Without failed saves every stored snapshot has the books of memory after any run |
| Auditor.ReconcilePositions | src/trading_strands/auditor/reconciler.py:57-95 | Passes exactly when totals match on every symbol; otherwise lists exactly the symbols that differ, with both quantities |
| Auditor.SumLedgers | src/trading_strands/auditor/reconciler.py:64-70 | The dictionary built by the loops holds the total of every symbol over all ledgers |
| Auditor.ReconcileFees | src/trading_strands/auditor/reconciler.py:97-135 | Passes exactly when the drift is within the tolerated share of the larger total |
| Auditor.FeesAreOfAllFills | src/trading_strands/ledger/models.py:156-157 | The fees a ledger records over a run are those of its accepted fills and those of its refused ones |
| Auditor.RecordedFeesIff | src/trading_strands/auditor/reconciler.py:97-118 | Over runs of any number of ledgers the recorded fees are those of the accepted fills exactly when the fees of the refused ones, logged before the refusal, add up to zero |
| KillSwitches.KillSwitch.Execute | src/trading_strands/risk/killswitch.py:59-76 | Logs first, then the verb in place is `AfterVerb` on the desk |
| KillSwitches.KillSwitch.SellPositions | src/trading_strands/risk/killswitch.py:89-109 | Going through a copy while selling mutates the list sells exactly what the list held at the start |
| KillSwitches.KillSwitch.SellEntry | src/trading_strands/risk/killswitch.py:90-109 | Selling one entry leaves the later entries of the copy in the list, unchanged |
| KillSwitches.KillSwitch.SellOnDesk | src/trading_strands/risk/killswitch.py:89-109 | Sweeping one ledger moves the default broker's account and leaves all other ledgers and accounts as they were |
| KillSwitches.KillSwitch.SellAcross | src/trading_strands/risk/killswitch.py:85-109 | The loop over the target ledgers, stopped by the first order that raises |
| KillSwitches.SweepKeepsUnwanted | src/trading_strands/risk/killswitch.py:117-149 | Against full fills a sweep removes exactly the wanted positions and keeps the others in order |
| KillSwitches.SweepRecordsAnswers | src/trading_strands/risk/killswitch.py:89-109 | The fills a sweep records, with prices and fees, are the first of the broker's answers; if nothing raises they are all of them, one order for the whole of each wanted position was sent, and the profit grows by their cash less the basis sold |
| KillSwitches.LiquidateFlattens | src/trading_strands/risk/killswitch.py:85-115 | Every targeted ledger ends flat and halted, no other ledger changes |
| KillSwitches.SellGainsKeepsLosers | src/trading_strands/risk/killswitch.py:117-155 | A targeted ledger keeps, unchanged, exactly the unpriced positions and those at or below basis |
| KillSwitches.KilledBotsStayFrozen | src/trading_strands/risk/killswitch.py:78-155 | After any verb that got as far as its halt no run of the pipeline submits for, or changes in any respect, a targeted ledger |
| KillSwitches.HaltIsSetIff | src/trading_strands/risk/killswitch.py:85-155 | The halt is set exactly when, for every position it has to sell, there is a default broker that answers with a fill of at most the position; otherwise nothing is halted that was not; no bot that is not targeted is stopped or released |
| KillSwitches.PartlySoldAndUnhalted | src/trading_strands/risk/killswitch.py:85-115 | The witness: one position sold, the second order raises, bot and desk unhalted |
| KillSwitches.SalesAreSavedIff | src/trading_strands/risk/killswitch.py:85-155 | Whatever the broker answers, snapshots that were up to date still are after a verb exactly when no bot with a snapshot trades in its turn: gets its turn, and has a wanted position sold at least in part before an order raises or is overfilled |
| KillSwitches.SweepChangesIff | src/trading_strands/risk/killswitch.py:89-109 | Whatever the broker answers, a sweep changes a ledger's books exactly if it trades |
| KillSwitches.OnlyHomeIsTouched | src/trading_strands/risk/killswitch.py:44-57 | Whatever orgs the bots belong to, only the default broker's account is sold from |
| KillSwitches.VerbKeepsAgreementIff | src/trading_strands/risk/killswitch.py:85-155 | From agreement with the brokers a verb keeps it exactly when no order that it gets to is filled beyond its position |
| Orchestration.Orchestrator.Tick | src/trading_strands/orchestrator/engine.py:135-262 | One tick in place is `AfterTick`: halt check, bots in order, audit, context kept |
| Orchestration.Orchestrator.WakeBots | src/trading_strands/orchestrator/engine.py:189-249 | The bot loop, with counters, ended by a predicate that raises |
| Orchestration.Orchestrator.MaybeReconcile | src/trading_strands/orchestrator/engine.py:264-297 | When an audit is due, and what it does to count and halt flag |
| Orchestration.Orchestrator.CheckRemoteHalt | src/trading_strands/orchestrator/engine.py:334-348 | The desk flag follows the stored flag whenever it can be read |
| Orchestration.PriceContextHolds | src/trading_strands/orchestrator/engine.py:299-316 | A context has exactly the price keys of the priced symbols, with their prices, and ledger fields never collide with them |
| Orchestration.FieldsTellTheRun | src/trading_strands/orchestrator/engine.py:299-316 | What a predicate sees of a ledger, in terms of the fills since it was opened: net cash, equity, peak, drawdown from it, number of symbols open |
| Orchestration.TurnMeans | src/trading_strands/orchestrator/engine.py:189-214 | A bot trades in its turn exactly when it has a ledger, its predicate fires or is absent, and it asks for a trade; a raising predicate ends the tick |
| Orchestration.RoundIsRun | src/trading_strands/orchestrator/engine.py:189-249 | The trading of a tick is a run of coordinator calls, so every desk theorem applies |
| Orchestration.CountersCountOutcomes | src/trading_strands/orchestrator/engine.py:212-249 | The counters grow by the numbers of calls executed and turned down; calls that raise count in neither |
| Orchestration.PrevIsLastCompleted | src/trading_strands/orchestrator/engine.py:140-159 | The previous context is the prices of the last completed tick, skipping ticks that returned early |
| Orchestration.OnlyPricesCross | src/trading_strands/orchestrator/engine.py:258-259 | In no run does a crossing on a field that is not a price fire |
| Orchestration.WakeIsFiring | src/trading_strands/orchestrator/engine.py:194-199 | A price crossing wakes a bot exactly when it fires over the prices of the completed ticks |
| Orchestration.WakesAreFirings | src/trading_strands/orchestrator/engine.py:194-199 | A registered bot with a crossing is woken exactly as often as the crossing fires over the completed ticks |
| Orchestration.WakesObeyCrossingLaw | src/trading_strands/orchestrator/engine.py:189-259 | The crossing law for two registered bots waiting for a price to cross one threshold upwards and downwards: how often each is woken, in its turn and with the ledger it then has, over a whole run |
| Orchestration.SoundRunNeverStops | src/trading_strands/orchestrator/engine.py:123-159 | With well-formed predicates no run ends early; a tick completes exactly when it has bots and prices |
| Orchestration.AuditSchedule | src/trading_strands/orchestrator/engine.py:264-270 | In a steady run audits fall on ticks 59, 119, 179, ... |
| Orchestration.DriftHaltsOnSchedule | src/trading_strands/orchestrator/engine.py:264-297 | Without a publisher a persistent mismatch halts the desk at exactly the configured number of audits, not earlier |
| Orchestration.HaltStandsUntilFlagClears | src/trading_strands/orchestrator/engine.py:334-348 | A halted desk that no flag read releases does not change in any respect over any run of ticks |
| Orchestration.DriftFreezesDesk | src/trading_strands/orchestrator/engine.py:284-293 | The two together: after that audit nothing on the desk changes any more |
| Orchestration.BotKillStands | src/trading_strands/risk/killswitch.py:78-155 | A verb against one bot stands over every run of ticks under every stored flag: no order, and the ledger as the verb left it |
| Orchestration.DeskHaltStandsIff | src/trading_strands/orchestrator/engine.py:334-348 | A desk halt stands in every tick that a run gets to exactly when none of them reads a cleared flag, and then the desk does not change |
| Orchestration.AuditorIsPowerless | src/trading_strands/orchestrator/engine.py:334-348 | With a readable flag, runs with and without the auditor make the same trades and wake the same bots |
| Orchestration.NoFalseAlarmIff | src/trading_strands/orchestrator/engine.py:264-297 | Covered sells keep agreement over any run and any routing; against honest listings of one account the auditor never counts a failure exactly when at every audit the other accounts are flat over all |
| Orchestration.TickAlarmsIff | src/trading_strands/orchestrator/engine.py:272-295 | The same for one tick, with the count it leaves |
| Orchestration.OneAccountNeverAlarms | src/trading_strands/orchestrator/engine.py:264-297 | With one account for the whole desk there is no false alarm |
| Orchestration.TicksSettleReports | src/trading_strands/orchestrator/engine.py:135-262 | Over any run of ticks, halts included, every ledger, histories included, is the run of exactly the fills reported for it |
| Orchestration.TicksConserveMoney | src/trading_strands/orchestrator/engine.py:135-262 | Conservation of money over ticks, for those fills |
| Orchestration.BuysRespectDrawdownOverTicks | src/trading_strands/risk/manager.py:89-95 | A buy submitted in any tick finds equity at or above (1 - max_drawdown_pct) times the peak over all the bot's reported fills so far |
| Lifetimes.LifeIsTold | src/trading_strands/app.py:297-307 | Over any life of ticks, verbs, halts and unhalts, and restarts from snapshots, the ledger is the run of the fills it remembers, its snapshot the run of a prefix of them |
| Lifetimes.LifeKeepsTheBooks | src/trading_strands/ledger/models.py:154-201 | Over any such life: conservation of money, mark equal to the peak, positions equal to net shares |
| Lifetimes.LifeRespectsDrawdown | src/trading_strands/risk/manager.py:89-95 | After any such life a submitted buy finds equity at or above (1 - max_drawdown_pct) times the peak over the fills the ledger remembers |
| Lifetimes.SweepSettlesReports | src/trading_strands/risk/killswitch.py:89-109 | A sweep is a run of the fills reported to it |
| Lifetimes.RestartKeepsTold | src/trading_strands/app.py:297-307 | A restart goes back to the line of the snapshot, or to a new ledger if there is none |
| Lifetimes.RestartReadsSnapshots | src/trading_strands/app.py:297-307 | What a restart makes of every ledger, field by field, with or without a snapshot |
| Indicators.ComputeEma | src/trading_strands/ta_snapshot/indicators.py:30-44 | The loop computes the recursive EMA, or nothing when there are too few closes or no period |
| Indicators.EmaOfRamp | src/trading_strands/ta_snapshot/indicators.py:30-44 | The EMA of a straight line lags its last close by half of period - 1 steps, which fixes the factor 2 / (period + 1) |
| Indicators.ComputeRsi | src/trading_strands/ta_snapshot/indicators.py:47-81 | The two loops compute Wilder's recursive averages and the four-branch RSI |
| Indicators.RsiIsShareOfRises | src/trading_strands/ta_snapshot/indicators.py:47-81 | For every series, RSI is one hundred times the share of smoothed rises in smoothed rises and falls, or fifty |
| Indicators.RsiFollowsDirection | src/trading_strands/ta_snapshot/indicators.py:47-81 | For every series, RSI is above fifty exactly when Wilder's average of the signed differences is positive, and below exactly when it is negative |
| Indicators.RsiOfMonotone | src/trading_strands/ta_snapshot/indicators.py:47-81 | A series that only rises has RSI 100, one that only falls 0 |
| Indicators.SmoothIsBlend | src/trading_strands/ta_snapshot/indicators.py:66-72 | Wilder's smoothing is the EMA blend of period 2 * period - 1 |
| Indicators.WalkCloses | src/trading_strands/ta_snapshot/indicators.py:98-117 | The single pass builds the difference of the two running averages at every close, for any periods it can divide by |
| Indicators.ComputeMacd | src/trading_strands/ta_snapshot/indicators.py:84-128 | For all integers; with positive periods it never raises, the second length guard never fires, and for fast up to slow it equals the definition by EMAs of prefixes |
| Indicators.MacdMeans | src/trading_strands/ta_snapshot/indicators.py:84-128 | For every series the line is the fast EMA minus the slow EMA, and the sum of signal and histogram |
| Indicators.MacdOfRamp | src/trading_strands/ta_snapshot/indicators.py:84-128 | On a straight line both line and signal are half the slope times slow - fast, and the histogram is zero |
| Indicators.PassIsMacdSeries | src/trading_strands/ta_snapshot/indicators.py:84-128 | Every entry of the pass is EMA(prefix, fast) - EMA(prefix, slow) |
| Indicators.PassIsExactIffFastNotSlower | src/trading_strands/ta_snapshot/indicators.py:84-128 | Where the fast EMA is defined the pass computes it at every entry of every series exactly when fast does not exceed slow |
| Indicators.SmaAffine | src/trading_strands/ta_snapshot/indicators.py:21-27 | The simple average follows any affine change of the closes; the EMA of just enough closes is the simple average |
| Indicators.SmaOfRamp | src/trading_strands/ta_snapshot/indicators.py:21-27 | The simple average of a straight line lags its last close as the EMA does |
| Indicators.EmaAffine | src/trading_strands/ta_snapshot/indicators.py:30-44 | The EMA of an affine image is the affine image of the EMA |
| Indicators.EmaWithinRange | src/trading_strands/ta_snapshot/indicators.py:30-44 | An EMA stays between the lowest and the highest close |
| Indicators.MacdAffine | src/trading_strands/ta_snapshot/indicators.py:84-128 | The triple ignores a shift of all closes and scales with them |
| Indicators.RsiIsGainShare | src/trading_strands/ta_snapshot/indicators.py:74-81 | The four branches are one formula: the share of gains in all movement |
| Indicators.RsiInRange | src/trading_strands/ta_snapshot/indicators.py:47-81 | RSI is between 0 and 100 for every series |
| Indicators.RsiAffine | src/trading_strands/ta_snapshot/indicators.py:47-81 | Shift and positive scale leave RSI alone, a negative scale mirrors it about 50 |
| Tta.AnswerIsMeaning | src/trading_strands/ir/tta.py:35-61 | A short-circuit answer is the Boolean meaning of the whole tree, whatever the skipped leaves are |
| Tta.ComparisonMeans | src/trading_strands/ir/tta.py:26-32 | Each operator, by how far the field is above the value: the field stands on the left |
| Tta.CrossingIsEdge | src/trading_strands/ir/tta.py:80-104 | A crossing fires exactly when its comparison holds now and failed on the same field before |
| Tta.DeMorgan | src/trading_strands/ir/tta.py:44-50 | Negated "and" is "or" of the negations and the other way round, exceptions included, for any trees |
| Tta.WellFormedNeverRaises | src/trading_strands/ir/tta.py:35-104 | A well-formed tree never raises in any context |
| Tta.LeafRaisesIffMalformed | src/trading_strands/ir/tta.py:64-104 | For leaves, never raising is exactly well-formedness |
| Tta.LeafRaises | src/trading_strands/ir/tta.py:64-104 | Which exception a leaf raises, and exactly in which contexts |
| Tta.CrossingLaw | src/trading_strands/ir/tta.py:80-104 | Firings up minus firings down, for every series, ties included |
| Tta.NetCrossingsIffBalanced | src/trading_strands/ir/tta.py:80-104 | The exact condition for it to be the net change of side |
| Tta.NoTiesBalance | src/trading_strands/ir/tta.py:80-104 | The condition holds when no tick equals the threshold |
| Tta.TouchBreaksNetCrossings | src/trading_strands/ir/tta.py:80-104 | A concrete series with a tie for which it fails |
| Tta.DirectionsExclude | src/trading_strands/ir/tta.py:80-104 | The directions never fire together |
| Tta.FiringsNeedReturn | src/trading_strands/ir/tta.py:80-104 | Between two firings of one direction some tick is back at the threshold or on its other side |
| Tta.FiringsAlternate | src/trading_strands/ir/tta.py:80-104 | Without ties a firing of the other direction lies between any two of the same |
| Supervisor.ClassifyImages | src/trading_strands/supervisor/strategy_supervisor.py:86-138 | The decision for every insert, status change and removal of a row with an org |
| Supervisor.ClassifyMeans | src/trading_strands/supervisor/strategy_supervisor.py:86-138 | For any record at all, exactly when it stops, runs or pauses a strategy |
| Supervisor.ClassifyNames | src/trading_strands/supervisor/strategy_supervisor.py:86-105 | Which strategy and org a decision is about, from the row or from its key |
| Supervisor.ReconcileOn | src/trading_strands/supervisor/strategy_supervisor.py:306-348 | One decision in place on the services, with the ECS call that fails, if one does |
| Supervisor.FailsIff | src/trading_strands/supervisor/strategy_supervisor.py:211-348 | A decision does not get through exactly when it lacks its org or a call that it makes fails |
| Supervisor.EnsureRunningOn | src/trading_strands/supervisor/strategy_supervisor.py:211-271 | Creates a missing service, starts an idle one, leaves a running one alone |
| Supervisor.PauseOn | src/trading_strands/supervisor/strategy_supervisor.py:274-285 | Scales an existing service to zero, ignores a missing one |
| Supervisor.StopOn | src/trading_strands/supervisor/strategy_supervisor.py:288-303 | Scales to zero and deletes; a deletion that fails leaves the idle service; a missing service is fine |
| Supervisor.RunBatch | src/trading_strands/supervisor/strategy_supervisor.py:354-407 | The batch loop with its counters; a record that raises, or whose ECS call fails, is counted and skipped |
| Supervisor.ServiceNamesAreDistinct | src/trading_strands/supervisor/strategy_supervisor.py:56-59 | Different strategies have different services |
| Supervisor.ServicesAreIndependent | src/trading_strands/supervisor/strategy_supervisor.py:306-407 | Every service ends where its own decisions alone take it |
| Supervisor.InterleavingIsIrrelevant | src/trading_strands/supervisor/strategy_supervisor.py:306-407 | Any interleaving with the same order per strategy leaves the same services and counts |
| Supervisor.ReplayOfOneService | src/trading_strands/supervisor/strategy_supervisor.py:306-407 | Processing the same decisions twice is processing them once |
| Supervisor.RetryIsIdempotent | src/trading_strands/supervisor/strategy_supervisor.py:354-407 | A failed attempt, even one that died inside a stop, leaves no trace after the whole batch |
| Supervisor.AtLeastOnceIsExactlyOnce | src/trading_strands/supervisor/strategy_supervisor.py:354-407 | Any number of failed attempts before a full delivery is as good as one delivery |
| Supervisor.Converges | src/trading_strands/supervisor/strategy_supervisor.py:86-138 | After the stream of any history every strategy has exactly the service its row calls for |
| Supervisor.GlitchesLeave | src/trading_strands/supervisor/strategy_supervisor.py:385-407 | A run with failing calls is a run of what is left of its decisions: nothing, or of a stop that cannot delete, a pause |
| Supervisor.ConvergesIff | src/trading_strands/supervisor/strategy_supervisor.py:385-407 | With failing calls a strategy has the service its row calls for exactly when enough of its own decisions got through, said of the decisions alone |
| Supervisor.LastDecisionSuffices | src/trading_strands/supervisor/strategy_supervisor.py:385-407 | For a strategy that stays in one org it is enough that the last decision about it got through, however many failed before |
| Supervisor.DecisionsFromStore | src/trading_strands/supervisor/reconcile_all.py:43-63 | The loop lists one decision per active row with an org |
| Supervisor.DecisionsAreActiveRows | src/trading_strands/supervisor/reconcile_all.py:43-63 | There is a decision for every active row with an org and no other |
| Supervisor.ReconcileAll | src/trading_strands/supervisor/reconcile_all.py:66-128 | Applies the decisions, or none in a dry run, and counts exactly those that failed |
| Supervisor.AllActiveRun | src/trading_strands/supervisor/reconcile_all.py:66-128 | Every active strategy with a decision that got through runs afterwards, and no other service is touched |
| MarketData.MarketDataStore.RecordTick | src/trading_strands/marketdata_store/store.py:74-90 | A tick joins its minute and completes the symbol's other minutes, stated for every key |
| MarketData.MarketDataStore.FlushCompletedMinutes | src/trading_strands/marketdata_store/store.py:92-109 | Writes out exactly the symbol's other minutes |
| MarketData.MarketDataStore.FlushAll | src/trading_strands/marketdata_store/store.py:111-117 | Writes out every buffered minute |
| MarketData.MarketDataStore.FlushOne | src/trading_strands/marketdata_store/store.py:119-180 | Replaces the stored bar of one minute by the bar of its buffer |
| MarketData.HighAndLowAreReached | src/trading_strands/marketdata_store/store.py:119-180 | High and low bound every price of the minute and are reached |
| MarketData.WriterInvariant | src/trading_strands/marketdata_store/store.py:74-180 | What is buffered and stored for a minute in every phase of any run of events |
| MarketData.StoredIsGroupIffOnePiece | src/trading_strands/marketdata_store/store.py:111-180 | The stored bar is the naive group's bar exactly when the minute came in one piece |
| MarketData.BarsAreGroupByMinute | src/trading_strands/marketdata_store/store.py:74-145 | For ordered ticks and a final flush the stored bars are the group-by-minute bars, for every key |
| MarketData.StoredBarSays | src/trading_strands/marketdata_store/store.py:119-145 | For ordered ticks and a final flush, by tick index: a bar opens with the first tick of its minute and closes with the last, bounds all prices, and has their count and volume |
| MarketData.LastPieceIsStored | src/trading_strands/marketdata_store/store.py:119-180 | For any events, the stored bar is that of the last piece of the minute to be completed, the buffer is the piece still growing, and the pieces are all its ticks |
| MarketData.OneMinuteBuffered | src/trading_strands/marketdata_store/store.py:92-109 | At all times at most one minute per symbol is buffered |
| MarketData.TicksAreConserved | src/trading_strands/marketdata_store/store.py:74-145 | For ordered ticks and a final flush the sample counts of the stored bars add up to the ticks, and their volumes to the volume of the stream |
| MarketData.TicksAreKeptIff | src/trading_strands/marketdata_store/store.py:111-180 | For any events the stored bars count every tick exactly when every minute came in one piece, and otherwise fewer |
| MarketReaders.WriterPlacesBars | src/trading_strands/marketdata_store/store.py:119-180 | The writer puts every bar in the row and minute of its last observation |
| MarketReaders.SortIsRight | src/trading_strands/marketdata_store/store.py:190-212 | The sort keeps the elements and orders them, strictly if instants are distinct |
| MarketReaders.CollectHour | src/trading_strands/marketdata_store/store.py:190-212 | Picks exactly the bars of one row inside the window |
| MarketReaders.GetRange | src/trading_strands/marketdata_store/store.py:190-212 | Terminates; returns exactly the bars of the visited hours inside the window, in order; on a well-placed table exactly the symbol's bars of the window, strictly ascending |
| MarketReaders.RangeIsExact | src/trading_strands/marketdata_store/store.py:190-212 | Over whatever the writer stored, after any events, a range read gives precisely the symbol's bars ending in the window, strictly ascending |
| MarketReaders.ReadFreshFromStore | src/trading_strands/marketdata/store_provider.py:55-87 | The close of the newest bar of the row looked at, if fresh enough |
| MarketReaders.GetPrice | src/trading_strands/marketdata/store_provider.py:89-107 | The store's answer, else the broker's |
| MarketReaders.SeenOrOld | src/trading_strands/marketdata/store_provider.py:55-87 | Every bar is in the row looked at, older than one there, or at least 3601 seconds old |
| MarketReaders.TwoRowsSuffice | src/trading_strands/marketdata/store_provider.py:55-87 | Below 3601 seconds the answer is the newest price of the whole store |
| MarketReaders.TwoRowsSufficeIff | src/trading_strands/marketdata/store_provider.py:55-87 | That bound is exact |
| MarketReaders.FreshPriceIsLatestTick | src/trading_strands/marketdata/store_provider.py:55-87 | End to end, for ordered ticks and a final flush: the freshest price is the price of the symbol's latest tick, if that is no older than the threshold |
| ToolQuota.ToolQuotaStore.Reserve | src/trading_strands/tool_quota/store.py:64-113 | Counts first and compares after; a limit of zero or less refuses without counting |
| ToolQuota.ToolQuotaStore.RecordCacheHit | src/trading_strands/tool_quota/store.py:115-138 | Counts the hit, not the consumption |
| ToolQuota.AttributesAreDistinct | src/trading_strands/tool_quota/store.py:76-138 | No two counters of a row share an attribute |
| ToolQuota.AnswersAreConsecutive | src/trading_strands/tool_quota/store.py:64-113 | The answers of the atomic adds are 1, 2, 3, ... each given once, in any interleaving |
| ToolQuota.QuotaIsExact | src/trading_strands/tool_quota/store.py:64-113 | Exactly min(limit, attempts) reservations succeed and consumed equals attempts, in any interleaving |
| ToolQuota.HitsAreCounted | src/trading_strands/tool_quota/store.py:115-138 | The hit counter is the number of cache hits, in any interleaving with reservations |
| NewsTool.RunNewsFetch | src/trading_strands/tools/news.py:155-221 | Cache, quota, fetch, cache write, in order, with every early exit |
| NewsTool.NewsCache.Get | src/trading_strands/tools/news.py:74-85 | The entry of the symbol while it is no older than the time to live |
| NewsTool.NewsCache.Put | src/trading_strands/tools/news.py:87-97 | Overwrites the symbol's row with the current second |
| NewsTool.FetchesAreMetered | src/trading_strands/tools/news.py:155-221 | The service sees exactly min(limit, cache misses) requests per strategy and day |
| NewsTool.OutcomeIsKnown | src/trading_strands/tools/news.py:155-221 | How each call of a run ends: a miss is refused exactly when as many missed before that day as the quota allows, and is told the count; else it ends as the service answers |
| NewsTool.HitIffLastFetchIsFresh | src/trading_strands/tools/news.py:74-97 | A call hits the cache exactly when its symbol was fetched and no more than 3600 seconds have passed since the stamp of the last fetch, and gets what that fetch brought |
| NewsTool.UninterruptedIsCall | src/trading_strands/tools/news.py:155-221 | The steps of one invocation, uninterrupted, are the call |
| NewsTool.InterleavedFetchesAreMetered | src/trading_strands/tools/news.py:155-221 | For any interleaving of the steps of any invocations, no more than the quota reach the service, and exactly min(limit, reservations) once all are done |
| NewsTool.StampNeverGoesBack | src/trading_strands/tools/news.py:87-97 | Once fetched, a symbol stays cached with a stamp no older than the fetch |
| NewsTool.NoRefetchWhileFresh | src/trading_strands/tools/news.py:155-221 | After a successful fetch no call by any strategy leaves the cache until the time to live is over |

## Left out

- Decimal rounding: amounts are exact reals, so the 28-digit context of the program is not modelled.
- SnapshotIsAlwaysAPrefix: stated for a starting capital that is not negative; `RoundTripIff` shows that reloading is not faithful below zero.
- LagIsAtMostOneFill: stated without failed saves, as a failed save may lose any number of later fills until the next one.
- QuotaIsExact: stated for one fixed positive limit per strategy, tool and day; other quotas may vary freely.
- BuysRespectDrawdownOverTicks: stated for a bot whose mark equals its positive equity at the start, as for a fresh ledger with positive capital.
- LogIsFaithful: stated for sequential writes; the read before the write is not atomic in the program, so concurrent writers can log twice.
- LastDecisionSuffices: stated for a strategy that never changes its org; `ConvergesIff` has no such restriction.
- LiquidateFlattens: stated for a broker that fills in full; `SweepEndsIff` and `HaltIsSetIff` are about any answers.
- KillSwitches: kill switch and coordinator share one risk manager.
- Tick: within one tick the broker factory gives one answer per org; a bot's decision is a parameter; registration of bots during a run, what-if tracking, tick recording, publishing and sleeping are not modelled.
- BarsAreGroupByMinute: stated on what the writer stores; row expiry (TTL) and failing table writes are not modelled.
- Symbol upper-casing, JSON and date-string encodings: keys are taken as already normalised, hours and minutes are numbers.
- ECS: a deleted service is missing at once, task definitions and tags are reduced to the strategy and org they carry, and a decision meets at most one failing call.
- Fills that a broker makes after it has answered an order: they move the real account without any report; an account holds what its reported fills add up to.
- LifeIsTold: stated for a starting capital that is not negative, as reloading is not faithful below zero (`RoundTripIff`); processes die between happenings, and within one call in `SnapshotIsAlwaysAPrefix`.
- Mismatch texts and the order of a mismatch list: the report holds the mismatches themselves.
- compute_bollinger: its square root goes through floating point.
- get_prices and get_quote of the store-backed provider, consumed_today, events_for_bot and list_events: expressions over what is modelled.
- Authorization, tenancy, dashboards, language-model calls, metrics, and AWS or broker transport.
