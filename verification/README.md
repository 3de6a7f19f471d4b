# CEX verification

A Dafny model of the exchange: the matching loops, the settlement ledger, the order and
trade tables, the price-indexed book that Redis keeps beside them, the request handlers
that tie these together, and the websocket rooms. `dafny verify dfyconfig.toml` checks it.

## How it is put together

Each operation appears twice. A function says what it does to a value: `Match` to a view of
one book side, `ApplyToTables` to the tables, `ApplyToBook` to the index, `Create`, `Cancel`
and `Deposit` to the whole state. A class with mutable fields performs it step by step, with
the loops, accumulators and early returns of the Go code, and each method is proved to end in
the state that its function gives: `Ledger.Balances` (the balance statements),
`Store.OrderTable` (orders and trades), `OrderBook.RedisBook` (sorted sets and hashes),
`Engine.MatchingEngine` (the loops), `Controllers.Handlers` (the handlers, with rollback) and
`Rooms.WSServer`. Since the handlers end in the states of `Exchange.Step`, everything proved
of runs of steps holds of any sequence of handler calls.

Files, in order of use: `Models`, `Sums`, `Ledger`, `Score`, `OrderBook`, `Matching`,
`Execution` (what the loops achieve), `Settlement`, `Coverage`, `Exchange` (the state
machine), `Validity`, `Steps`, `ReadTimes`, `Runs`, `Payments`, `LockCoverage`, `Demands`,
`Requests` (what the handlers make of a request, in its own fields), `Creations`, `Solvency`,
`Accounting`, `Statuses`, `MarketOrders`, `Uncrossed`, `Remnants`, `StaleLocks`, `RoundTrips`,
`Rebuild`, `Counterexamples`, `CrossedBook`, `Store`, `Engine`, `Controllers`, `Rooms`.

## Reading the book

The matching loops read the best level anew in every round (matchingengine.go lines 36, 46,
77, 104). Two things are lost on that way, and each is a switch of the model.

*Which level.* Redis is written only after the commit (order.go lines 121-130), so as written
every read of one match serves the same, unfilled level: `ReadMode.Stale`. `ReadMode.Fresh` is
the loop in which the next read sees the earlier fills; `Engine.SyncedReadIsFresh` shows that
this is the same loop over a book synced after each fill.

*Which time.* The hash holds the creation time in milliseconds, and the read scans it with
`%d` into a structured time (redis.go lines 202, 232). That fails and leaves the zero time, and
a level that is hit and keeps resting is written back with it, at a score 6.38355968 below its
price (lines 261-277): `TimeRead.Undecoded`. `TimeRead.Decoded` is the read that is meant.

**The code as written is `Stale` with `Undecoded`.** What is proved is divided as follows.

- On every run, in both modes and both readings of the times: the constraints of the schema,
  statuses, price limits of all trades; a book that holds exactly the resting orders with the
  quantities and fills of their rows (`Runs.RunAgrees`); conservation; each user's balances
  following the trade table; the life of an order and its status (`Statuses.RunStatuses`); what
  a creation, a cancellation or a deposit is, in the fields of the request, with each of its
  errors (`Requests`); the exact condition under which a creation goes through
  (`Solvency.CreateSucceedsIff`); what a market order leaves locked; both kinds of
  restart; and the round trip of creating and cancelling.
- Nothing but the book depends on the times (`ReadTimes.StepAlike`). The book holds the rows to
  the millisecond where the times are decoded; as written it holds the zero time for an order
  if and only if the order has been hit as a level (`Runs.RunTimes`). From a book in full
  agreement with the table, a creation as written leaves one if and only if its match leaves
  no level partly filled, which can be told from the levels before it
  (`Remnants.CreateAgreesIff`); then it is the creation with the times decoded
  (`Remnants.NoRemnantSame`), over runs too (`Remnants.LeavesNoneRunsAgree`).
- When the book gets crossed, in both modes and both readings, for any prices and times. A
  limit order stops at the first level that does not cross it, and *overlooks* the levels
  behind that one: `Execution.Overlooks` holds of an order and the levels before its match if
  the order is left resting (reading stale: the first level does not cross it; reading fresh:
  the levels before the first that does not cross it hold less than its quantity) and a level
  behind crosses it. A creation that goes through on an uncrossed book crosses it if and only
  if it overlooks a level (`Uncrossed.CreateUncrossedIff`), cancellations and deposits never
  do (`Uncrossed.StepUncrossedIff`), and a run keeps the book uncrossed if and only if none of
  its creations overlooks one (`Uncrossed.RunUncrossedIff`). The code does this:
  `CrossedBook.UndecodedRunCrosses` is a run of four orders on a grid of whole dollars, within
  three milliseconds, whose last, a bid of 97, stops at an ask of 100, overlooks one of 95 and
  rests above it, in either mode; with the times decoded the same run crosses nothing.
- When orders are executed best: a limit order reading fresh gets all that rests within its
  limit if and only if it overlooks nothing (`Uncrossed.FillsAllIff`), and the trades of a
  market order are the best of all allocations if and only if they take from no level that is
  worse than one with something left (`Uncrossed.BuyIsBestIff`, `Uncrossed.SellIsBestIff`).
- With prices on a tick and times within the span that the score can carry, every side is
  served best price first, so nothing is ever overlooked and no market order takes from a
  worse level (`Uncrossed.RunUncrossed`, `Uncrossed.Reachable..`). As written the span has to
  reach back to the zero time, which takes a tick above 6.38; runs that leave no level partly
  filled need not reach back (`Remnants.LeavesNoneRunUncrossed`).
- On every run reading fresh, in both readings of the times: fill accounting, and, as long as
  the steps are proper, lock coverage and settlement that never refuses. Proper means that
  creations that go through are harmless in the sense below, and cancellations are of orders
  that rest or have nothing left to unlock; `Solvency.StepCoveredIff` shows that a step that
  is not proper breaks the coverage.
- Reading stale these are false, and the exact condition is proved: a creation keeps the
  accounts (`Accounting.StaleCreateIff`) and ends in the intended state exactly when the first
  level read covers the whole order or nothing crosses, which is the test
  `Accounting.FirstReadSuffices`, and keeps the locks covered exactly when in addition it is
  harmless (`StaleLocks.StaleCreateCoveredIff`). `StaleLocks.StaleCreateSucceedsIff` says
  exactly when it goes through, and `Accounting.SufficientRunsAgree` carries all results over
  to every run in which each first read suffices. `Counterexamples.StaleCreateBreaks` is a
  concrete state and request on which it does not, and shows at the same time that the
  assumptions of these theorems are met.

## Other points where the code and its intent differ

- The lock of a sell is taken in the base asset of the market (order.go line 73), the
  settlement uses the base asset that the request names (matchingengine.go lines 192-200), and
  nothing compares the two. `Counterexamples.MisnamedSellBreaks` is a market sell that leaves
  2 ETH locked for nobody and an ask of 2 BTC without its lock.
- The lock of a buy is taken in the quote asset of the market (order.go line 60), but
  settlements and cancellations take from a buyer's dollars (matchingengine.go lines 167, 180,
  185, order.go line 235), whatever the market is quoted in; and a sell of dollars locks dollars,
  where they look for a holding. Nothing keeps such markets out.
  `Counterexamples.ForeignBuyBreaks` is a limit buy in a market quoted in BTC that locks 2 BTC
  and cannot be cancelled. `Creations.LocksOwn` says when the two slots are the same: a buy in
  a market quoted in USD, or a sell in one whose base is not USD.
- These two are all that breaks the locks: reading fresh, a creation leaves them covered if and
  only if it locks its own slot and either names its market's base or meets nothing and is not
  a market sell: `Creations.Harmless`, proved exact in `Solvency.CreateCoveredIff`.
- A limit buy filled below its limit keeps the difference locked, since only market orders
  get anything unlocked (matchingengine.go lines 184-189). The coverage theorem carries this
  amount as `KeptBack`, computed from the trade table; it is never negative and never
  returned.
- The status update of a cancellation has no guard on the old status (order.go of the
  queries, lines 184-188). `Solvency.CancelCoveredIff` says which cancellations keep the
  locks covered: those of orders that rest or have nothing left to unlock.
  `Counterexamples.CancelTwiceBreaks` is a concrete one that does not.
- At one price the bid index serves the newest order first, the SQL listing the oldest, and the
  SQL listing leaves out partly filled orders: `Rebuild.SqlAgainstIndex`.
- The loader asks for status open only, so a restart with an empty Redis forgets exactly the
  partially filled orders: `Rebuild.RestartAfterRun`.
- A market buy works with a quantity of 1e18 and ends cancelled unless it fills that much;
  kept as written.
- The repository's README says that matching is not wired into the order path; the handler
  does call it (order.go lines 108-130), and the model follows the handler.

## Assumptions

Prices, quantities and amounts are exact reals. Each create, cancel and deposit is one atomic
step. Where a theorem needs it, it says so: the assets of every market are registered, as the
foreign keys of the schema demand (`Creations.Registered`). An order id stands for the rank of
its UUID text. The id and the time of an insert are the database's and come with the step, the
time in microseconds, as the unique index sees it.

## Model

| member | source | states |
|---|---|---|
| Ledger.Balances.LockBalanceTx | db/queries/balance.go:91-134 | moves the amount from available to locked in the user's dollar or asset row, or refuses and changes nothing: missing row, too little available, negative lock |
| Ledger.Balances.UnlockTx | db/queries/balance.go:174-198 | moves a positive amount back from locked to available, refusing when less is locked (UnlockUSDTx, lines 378-402, on the dollar row) |
| Ledger.Balances.DebitTx | db/queries/balance.go:446-470 | takes a positive amount out of locked, refusing when less is locked (DebitUSDTx, lines 352-376, on the dollar row) |
| Ledger.Balances.CreditBalanceTx | db/queries/balance.go:270-282 | adds to available, creating the row with nothing locked, subject to the foreign keys |
| Ledger.Balances.CreditUSDTx | db/queries/balance.go:299-310 | adds to a user's dollars; an unknown user is no error and no change |
| Ledger.LockConserves | db/queries/balance.go:91-134 | a lock that goes through leaves every column total and all constraints in place |
| Ledger.UnlockConserves | db/queries/balance.go:174-198 | so does an unlock |
| Ledger.DebitHeld | db/queries/balance.go:446-470 | a debit lowers the total of its own column by the amount and no other |
| Ledger.CreditHeld | db/queries/balance.go:270-282 | a credit raises the total of its own column by the amount and no other |
| Ledger.UnlockUndoesLock | db/queries/balance.go:91-198 | unlocking what was locked restores the tables exactly |
| Score.ScoreIsLexicographic | internal/db/redis.go:86-91 | with prices on a tick and times spanning less than tick·1e13 ms, score order is exactly price, then time |
| Score.SpanIsTight | internal/db/redis.go:86-91 | for every longer span there are two such orders one tick apart that the score ranks against their prices |
| Score.SpanBoundaryTies | internal/db/redis.go:86-91 | at exactly that span they tie |
| OrderBook.RedisBook.BestLevel | internal/db/redis.go:175-234 | the first of the levels in order of service, lowest score of the asks, highest of the bids, none if the side is empty; read undecoded, with the zero time in place of its own |
| OrderBook.RedisBook.UpdateOrderInRedis | internal/db/redis.go:235-299 | removes a done order from index and details, else rewrites its hash and its score |
| OrderBook.RedisBook.InserOrderToRedis | internal/db/redis.go:300-343 | writes hash and score of an order |
| OrderBook.RedisBook.LoadOrderBookToRedis | internal/db/redis.go:52-85 | writes every row of the query, in order, into the book it finds |
| OrderBook.InsertAgrees | internal/db/redis.go:300-343 | writing a resting row into table and book keeps them in agreement, on every side |
| OrderBook.RemoveAgrees | internal/db/redis.go:240-259 | so does removing one that rests no more |
| OrderBook.LevelsAreListing | internal/db/redis.go:175-234 | the levels served are the resting rows of that market and side, each once, by score and then by id |
| OrderBook.ListingUnique | internal/db/redis.go:175-234 | there is only one such listing |
| OrderBook.AgreementIsUnique | internal/db/redis.go:235-343 | only one book agrees with a table |
| Matching.FillProgress | internal/matching/matchingengine.go:229-263 | a fill takes a positive part of the level, never more than is wanted, and lowers the measure of the loop in both modes |
| Matching.SpendFacts | internal/matching/matchingengine.go:264-294 | a market-buy fill ends the money to the last cent inside the level, or pays exactly for all of the level |
| Matching.SpendProgress | internal/matching/matchingengine.go:103-116 | and lowers the measure of its loop in both modes |
| Matching.FillEndsOrderOrLevel | internal/matching/matchingengine.go:31-59 | each advancing round fills the order or removes a level |
| Matching.SpendEndsMoneyOrLevel | internal/matching/matchingengine.go:103-116 | each advancing round of a market buy spends all the money or removes a level |
| Matching.QuantityFacts | internal/matching/matchingengine.go:31-59 | in both modes: trades at the levels' prices within the limit, fill equal to the traded volume and never above quantity, and an end only when filled or nothing crosses |
| Matching.BudgetFacts | internal/matching/matchingengine.go:101-116 | in both modes: amount = cost of the trades + residual price, residual never negative, and an end only when nothing is left of the money or of the asks |
| Execution.FreshTakesPrefix | internal/matching/matchingengine.go:31-59 | the trades are a prefix of the crossing levels, each hit once, all but the last whole, volume = min(wanted, offered) |
| Execution.LimitFillsWhatCrosses | internal/matching/matchingengine.go:26-69 | on a price-ordered side a limit order fills min(quantity, everything resting within its limit) |
| Execution.LimitFillsIff | internal/matching/matchingengine.go:26-69 | over any levels a limit order reading fresh fills min(quantity, everything resting within its limit) if and only if it overlooks no level |
| Execution.RunIsAllThatCrosses | internal/matching/matchingengine.go:41-52 | on a price-ordered side the loop breaks at the first level exactly when no level behind it crosses |
| Execution.StaleEqualsFresh | internal/matching/matchingengine.go:31-59 | reading stale, the loop has the effect of the fresh one if and only if nothing crosses or the best level covers the order, and then makes at most one trade |
| Execution.StaleRepeats | internal/matching/matchingengine.go:31-59 | otherwise it makes ceil(quantity / level remaining) trades against that one level and always ends filled |
| Execution.StaleRecordsVolume | internal/matching/matchingengine.go:229-239 | the level records what was traded on it if and only if one level suffices |
| Execution.StaleBudgetEqualsFresh | internal/matching/matchingengine.go:98-116 | the same equivalence for market buys: the amount does not exceed the cost of the best level |
| Execution.StaleSpendsAll | internal/matching/matchingengine.go:103-116 | reading stale, a market buy with a level to read spends all of its money on it, in ceil(amount / level cost) trades |
| Execution.MarketBuyBestIff | internal/matching/matchingengine.go:98-116 | over any asks, in whatever order they are served, the trades of a market buy are an allocation that the amount pays for, and one that takes the most if and only if they take from no ask dearer than one with something left |
| Execution.MarketSellBestIff | internal/matching/matchingengine.go:75-89 | the trades of a market sell bring the most if and only if they sell into no bid lower than one with something left |
| Execution.MarketBuyIsBest | internal/matching/matchingengine.go:98-116 | on a price-ordered side no allocation over the asks that the amount can pay for takes more base than the trades do |
| Execution.MarketSellIsBest | internal/matching/matchingengine.go:75-89 | on a price-ordered side no allocation over the bids of at most the order's quantity brings more than the trades do |
| Settlement.InsertTradesJoins | db/queries/trades.go:47-82 | the inserts go through if and only if each trade satisfies the constraints, and return the trades joined with the users of their orders |
| Settlement.SettleConserves | internal/matching/matchingengine.go:152-205 | whatever positive trades it is given, a settlement that goes through leaves the total of every column as it was |
| Coverage.SellersSettle | internal/matching/matchingengine.go:154-162 | with the holdings covered, no seller's debit refuses in a fresh match, however often a seller appears, and the holdings still cover the updated rows |
| Coverage.BuyersSettle | internal/matching/matchingengine.go:163-172 | the same for the buyers' dollars |
| Exchange.MatchFacts | internal/matching/matchingengine.go:26-124 | the incoming order after any match: fill, residual money, status by kind, and what it could not cross; a market order ends filled exactly when its fill is the sell's quantity or the buy's 1e18, and cancelled otherwise |
| Statuses.RunStatuses | internal/matching/matchingengine.go:60-121 | over any run, in both modes and both readings, an order that a cancellation has cancelled is cancelled; any other is filled if its fill is its quantity (for a market buy 1e18), and else cancelled if it is a market order, partially filled if it is a limit order with a fill, and open without one; the fill of a market order is the volume of the trades that name it |
| Statuses.RunSettlesMarkets | internal/matching/matchingengine.go:91-121 | so of the market orders made in a run and not cancelled since, a sell is filled if and only if all of its quantity was traded, a buy if and only if 1e18 was, and they are cancelled otherwise |
| Exchange.RowsOfSweep | internal/matching/matchingengine.go:137-145 | the update loop touches only rows of levels, which only gain, within their quantity |
| Validity.CreateConserves | internal/controllers/order.go:94-120 | a creation that goes through, in either mode, leaves every column total as it was |
| ReadTimes.MatchBlind | internal/matching/matchingengine.go:26-124 | the creation times of the levels reach nothing of a match but the levels it updates: same trades, same incoming order |
| ReadTimes.SweepStores | internal/db/redis.go:235-277 | rows and book updated by the same loop stay in agreement up to times, and the book stores of each order what it stored before or, if it was hit, the time that the read gave |
| ReadTimes.CreateAlike | internal/controllers/order.go:94-130 | a creation in either reading of the times does to funds, trades and rows what the intended one does to the state with the times the book holds, errors included |
| ReadTimes.StepAlike | internal/controllers/order.go:27-267 | so does every step, which keeps the schema, the statuses, the limits of all trades and the agreement of the book up to times, and changes the time that the book holds of an order exactly when it hits it |
| ReadTimes.StepConsistent | internal/controllers/order.go:27-267 | every step, failed ones included, keeps the state consistent in both modes and both readings |
| Runs.RunAgrees | internal/db/redis.go:235-343 | after any run, in both modes and both readings, the book holds exactly the open and partially filled limit orders, on their sides, with the rows' quantity and fill, at buildScore of the price and the time it holds |
| Runs.RunTimes | internal/db/redis.go:175-277 | from a book in agreement, over any run: decoded, each entry is its row; as written an entry is its row with the zero time if and only if the order has been hit as a level, and its row otherwise |
| Runs.RunConserves | internal/matching/matchingengine.go:152-207 | after any run, in both modes and both readings, each column holds what it held plus the deposits into it |
| Runs.RunEvolves | internal/controllers/order.go:108-130 | over any run fills never decrease, and an order that rests no more keeps its fill, never rests again and is in no later trade |
| Payments.SettlementPays | internal/matching/matchingengine.go:152-205 | a settlement changes what each user owns of each asset by exactly what its trades say that user bought and sold, self-trades included |
| Payments.CreatePays | internal/controllers/order.go:94-120 | so does a creation that goes through, in either mode, with the trades it inserts |
| Payments.RunPays | internal/matching/matchingengine.go:126-209 | over any run, in both modes and both readings, what a user owns of an asset changes by their deposits and by their buys and sells in the trade table, at the trades' prices |
| Demands.MakersSettleIff | internal/matching/matchingengine.go:152-173 | the settlement of the resting side goes through if and only if no slot is asked for more, over all trades together, than it has locked, and takes from each exactly that |
| Demands.SettlesIff | internal/matching/matchingengine.go:152-205 | so does the whole settlement, the incoming side and its unlock included, self-trades too |
| Requests.CreateIs | internal/controllers/order.go:27-130 | a creation in the fields of its request: the error of the first check that fails, in their order; and otherwise the row as it is inserted, with the amount asked for moved from available to locked, is matched and settled |
| Requests.CreateRecords | db/queries/order.go:29-57 | the row of any creation that goes through: user, market, kind, side and millisecond of the insert; price the amount if there is one or it is a market buy, else the price; quantity 100000 for a market buy, else the quantity |
| Requests.AdmissibleIff | internal/controllers/order.go:31-104 | what can be checked of a creation without matching it, in the fields of its request |
| Requests.BackingIs | internal/controllers/order.go:58-94 | what each slot has locked when the settlement starts, in the fields of the request: what it had, and the amount asked for in the slot that is locked |
| Requests.CancelIff | internal/controllers/order.go:215-244 | whatever its status, an order is cancelled if and only if it and its market are known and what is left of it, quantity less fill of a sell, at the price of a buy, is nothing or is locked; else nothing happens |
| Requests.CancelReleases | internal/controllers/order.go:215-265 | then its row is cancelled with its fill, exactly what was left moves from locked to available, no other row, slot or entry moves, and the order is in neither the index nor the details |
| Requests.DepositIs | internal/controllers/balance.go:14-51 | a deposit is refused unless positive, and adds to the dollars of a known user, or to the row of a registered asset, which it creates |
| Creations.MisnamedUncovers | internal/matching/matchingengine.go:190-205 | a creation that locks its own slot but names another base asset than its market has leaves the locks uncovered if it trades, and if it is a market sell in any case |
| Creations.ForeignUncovers | internal/controllers/order.go:52-76 | in both modes any creation whose lock is taken in another slot than its settlement takes from (a buy in a market not quoted in USD, a sell of USD) leaves the locks uncovered |
| Solvency.CreateSucceedsIff | internal/controllers/order.go:27-120 | in both modes and both readings a creation succeeds if and only if the checks made before it pass, the unique index included, the assets of its trades are registered, and no slot is asked for more than it will have locked; what stays locked is the difference |
| Solvency.CreateFails | internal/matching/matchingengine.go:126-205 | an admissible creation that fails does so with a foreign-key error if its trades need an asset that is not registered, and else because a slot has too little locked |
| Solvency.CreateCoveredIff | internal/matching/matchingengine.go:152-205 | reading fresh, a creation that goes through keeps the locks covered if and only if it locks the slot it is settled from, and names the base asset of its market or meets nothing and is not a market sell |
| Solvency.HarmlessSucceedsIff | internal/controllers/order.go:27-120 | from a covered state such a creation goes through if and only if the checks made before it pass and, if it trades, its quote asset is registered: after the lock no guard refuses, self-trades included |
| Solvency.StepCoveredIff | internal/controllers/order.go:27-267 | reading fresh, a step keeps the locks covered if and only if it is proper |
| Solvency.RestingCancels | internal/controllers/order.go:215-244 | every resting order can be cancelled |
| Solvency.CancelCoveredIff | db/queries/order.go:180-212 | a cancellation keeps the locks covered if and only if its order rests or has nothing left to unlock |
| Solvency.DepositCovered | internal/controllers/balance.go:14-51 | a deposit keeps the locks covered |
| Solvency.RunCovered | internal/matching/matchingengine.go:152-205 | in every state a run of proper steps reaches, in any markets: locked base = what remains of resting sells, locked USD = what remains of resting buys at their limits + improvement kept back, which is never negative; there every cancellation of a resting order succeeds, and every admissible creation that locks its own slot and names its market's base and a registered quote |
| Solvency.InitialIsCovered | db/migrations/001_initial_schema.up.sql:3-67 | an exchange without orders and locks is a valid, covered start |
| Accounting.SweepFills | internal/matching/matchingengine.go:137-145 | reading fresh, each row gains exactly what the trades that name it add up to |
| Accounting.FillingStale | internal/matching/matchingengine.go:137-150 | reading stale, the fills match the trades after a creation if and only if it made at most one trade |
| Accounting.SufficientReadIsFresh | internal/matching/matchingengine.go:31-59 | if the first read suffices, the creation reading stale is the one reading fresh, errors included |
| Accounting.StaleCreateIff | internal/controllers/order.go:108-130 | a creation reading stale keeps the accounts, and ends in the state of the fresh one, if and only if its first read suffices |
| Accounting.RunAccounted | internal/matching/matchingengine.go:229-294 | over any fresh run each order's fill is the total of the trades naming it |
| Accounting.RunFillsBalance | internal/matching/matchingengine.go:229-294 | over any fresh run buys and sells have filled the same volume, that of all trades, and no limit order or market sell is filled beyond its quantity |
| Accounting.SufficientRunsAgree | internal/controllers/order.go:108-130 | on runs whose first reads suffice, reading stale passes through the states of reading fresh |
| MarketOrders.MarketMatchBalances | internal/matching/matchingengine.go:98-122 | what a market order's trades cost or took and what it returns are together what it locked |
| MarketOrders.MarketLeavesNoLock | internal/matching/matchingengine.go:184-204 | what a market order leaves in the slot it locked, in both modes and both readings: nothing if it locks its own slot and was a buy or named its market's base, its quantity if it named another, and of a lock in another slot all but what its counterparties were asked for there |
| Remnants.SyncedServesRest | internal/matching/matchingengine.go:211-227 | the book after the sync serves the traded side exactly as the fresh match left it, with the times decoded, and as written if no level is left partly filled |
| Uncrossed.GridOrdersSides | internal/db/redis.go:86-91 | with prices on the tick and all times that the book holds within the score bound, the zero time included as written, every side is served best price first |
| Uncrossed.CreateUncrossedIff | internal/controllers/order.go:108-130 | from any consistent state with an uncrossed book, in both modes and both readings, a creation that goes through leaves it uncrossed if and only if it overlooks no level, told from the levels before it |
| Uncrossed.StepUncrossedIff | internal/controllers/order.go:27-267 | a step crosses the book if and only if it is such a creation; cancellations and deposits never do |
| Uncrossed.RunUncrossedIff | internal/matching/matchingengine.go:31-59 | a run leaves the book uncrossed after each of its steps if and only if none of its creations overlooks a level; the first that does crosses it |
| Uncrossed.RunUncrossed | internal/matching/matchingengine.go:211-227 | under the score bound, in both modes, no creation overlooks a level: the book is uncrossed after every step of any run and every side is served best price first; as written the bound has to take in the zero time |
| Uncrossed.BuyIsBestIff | internal/matching/matchingengine.go:98-116 | in any consistent state and both readings, a fresh market buy gets the most its amount can buy over the actual book if and only if its trades take from no ask dearer than one with something left |
| Uncrossed.SellIsBestIff | internal/matching/matchingengine.go:75-89 | a fresh market sell brings the most its quantity can if and only if its trades sell into no bid lower than one with something left |
| Uncrossed.FillsAllIff | internal/matching/matchingengine.go:26-69 | a fresh limit order fills min(quantity, all that rests within its limit) if and only if it overlooks no level |
| Uncrossed.ReachableBuyIsBest | internal/matching/matchingengine.go:98-116 | in every state that a run under the score bound reaches, a fresh market buy gets the most its amount can buy over the actual book |
| Uncrossed.ReachableSellIsBest | internal/matching/matchingengine.go:75-89 | there a fresh market sell brings the most its quantity can |
| Uncrossed.ReachableLimitFills | internal/matching/matchingengine.go:26-69 | there a fresh limit order fills min(quantity, all that rests within its limit) |
| Remnants.CreateAgreesIff | internal/db/redis.go:235-277 | as written a creation keeps the book in full agreement with the table if and only if its match leaves no level partly filled that has a time to lose, told from the levels before it |
| Remnants.NoRemnantSame | internal/controllers/order.go:94-130 | and then it is the creation with the times decoded |
| Remnants.LeavesNoneRunsAgree | internal/controllers/order.go:27-267 | on runs of such creations, in either mode, the times are never missed: the run undecoded is the run decoded |
| Remnants.LeavesNoneRunUncrossed | internal/matching/matchingengine.go:211-227 | so such runs, as written, neither cross the book nor serve a worse price first for any tick whose span takes in the times decoded |
| CrossedBook.UndecodedRunCrosses | internal/db/redis.go:202-277 | a run of four orders on a dollar grid, within the score bound of the times decoded, whose last, as written and in either mode, overlooks an ask of 95 behind one of 100 and rests above it as a bid of 97; decoded it crosses nothing |
| StaleLocks.StaleCreateSucceedsIff | internal/controllers/order.go:94-120 | reading stale, in both readings of the times and any market, a creation goes through if and only if it is admissible and either its first read suffices and the fresh one would settle, or its assets are registered and the slots of the two users, the lock included, hold what the whole order asks of each (what the taker's fill costs, and the whole order's worth of the one maker) |
| StaleLocks.StaleCreateCoveredIff | internal/matching/matchingengine.go:137-205 | one that goes through leaves the locks covered if and only if its first read suffices and it is harmless |
| Counterexamples.StaleCreateBreaks | internal/matching/matchingengine.go:31-59 | a concrete book and buy on which the stale creation goes through and leaves neither accounts nor locks in order |
| Counterexamples.MisnamedSellBreaks | internal/matching/matchingengine.go:190-205 | a concrete market sell naming another base that goes through without a trade, leaves 2 ETH locked for nobody and 2 BTC behind asks of 4 |
| Counterexamples.ForeignBuyBreaks | internal/controllers/order.go:52-76 | a concrete limit buy in a market quoted in BTC that goes through, leaves 2 BTC locked that no order claims, and cannot be cancelled |
| Counterexamples.CancelTwiceBreaks | internal/controllers/order.go:215-244 | a concrete order that is paid out twice when cancelled twice, after which the owner's other order cannot be cancelled |
| RoundTrips.CancelUndoesCreate | internal/controllers/order.go:191-267 | in both modes and both readings, cancelling a limit order that has not traded restores balances, trades and book to what they were before its creation if and only if its lock was taken in the slot that it gives back to; its row stays, cancelled, and its entry in the unique index |
| Rebuild.RebuiltIsOpenPart | internal/db/redis.go:52-85 | loading an empty book gives the maintained one restricted to status open, and all of it if and only if nothing is partially filled |
| Rebuild.ReloadChangesNothing | internal/db/redis.go:52-85 | loading into a book in agreement changes nothing |
| Rebuild.RestartAfterRun | db/queries/order.go:137-165 | both, for the book that any run leaves, in both modes and both readings |
| Rebuild.SqlAgainstIndex | db/queries/order.go:228-260 | on the grid the SQL listing equals the index order if and only if the side has no partly filled order and rows at one price take the same turn: asks of one millisecond by ascending id; bids never at one price, but for those of one millisecond by descending id |
| Store.OrderTable.CreateOrderTx | db/queries/order.go:29-57 | inserts a pending row and its entry in the unique index over user, market and time, or refuses by the constraints and changes nothing |
| Store.OrderTable.UpdateOrderStatusTx | db/queries/order.go:180-212 | sets the status of any known row, whatever it was, and returns the row |
| Store.OrderTable.UpdateOrderStatusAndQuantityTx | db/queries/order.go:278-290 | sets status and fill of a known row |
| Store.OrderTable.InsertTradeTx | db/queries/trades.go:47-82 | appends a trade joined with its users, or refuses by the constraints |
| Engine.SyncedReadIsFresh | internal/matching/matchingengine.go:36-46 | over a book synced after each fill, the next read serves what the fresh loop goes on with; undecoded, if the hit is done, as it is whenever the loop goes on |
| Engine.MatchingEngine.Fill | internal/matching/matchingengine.go:229-263 | the three results of a fill against a level |
| Engine.MatchingEngine.FillMarketBuy | internal/matching/matchingengine.go:264-294 | the three results of a fill out of a budget |
| Engine.MatchingEngine.BestCrossing | internal/matching/matchingengine.go:34-53 | the best level if there is one and it crosses |
| Engine.MatchingEngine.MatchLimitOrders | internal/matching/matchingengine.go:26-69 | terminates with the effect of `Match` on the levels of the book as they are read, in both modes and both readings, leaving the book alone |
| Engine.MatchingEngine.MatchMarketOrders | internal/matching/matchingengine.go:70-124 | the same for market orders of both sides, with the status of the incoming order: filled at its quantity or, once a buy has traded, at 1e18, and cancelled otherwise |
| Engine.MatchingEngine.MatchMarketSell | internal/matching/matchingengine.go:75-94 | its sell loop, which ends filled at the order's quantity and cancelled below it |
| Engine.MatchingEngine.MatchMarketBuy | internal/matching/matchingengine.go:98-122 | its buy loop, with the quantity of 1e18 that reaches the result only after a trade; filled at that, cancelled below it |
| Engine.MatchingEngine.InsertAll | internal/matching/matchingengine.go:127-135 | all trades inserted, or the first error |
| Engine.MatchingEngine.UpdateAll | internal/matching/matchingengine.go:137-145 | all updated rows but the incoming one, the last update of a row winning |
| Engine.MatchingEngine.SettleTrades | internal/matching/matchingengine.go:152-173 | the resting side settled trade by trade, with accumulators equal to the volume and the cost of all trades |
| Engine.MatchingEngine.SettleIncoming | internal/matching/matchingengine.go:175-205 | the incoming side settled out of the accumulators, with the unlock of market orders |
| Engine.MatchingEngine.ApplyOrderResultToDBTx | internal/matching/matchingengine.go:126-209 | ends in the tables that `ApplyToTables` gives, or returns its error |
| Engine.MatchingEngine.ApplyOrderResultToRedis | internal/matching/matchingengine.go:211-227 | ends in the book that `ApplyToBook` gives |
| Controllers.Handlers.CheckRequest | internal/controllers/order.go:31-76 | in the fields of the request: the price and the quantity it is taken to have and the amount and the asset it locks; or, in this order, bad request for a missing field, invalid market for an unknown or inactive one, invalid cost for a buy that costs nothing |
| Controllers.Handlers.CreateOrder | internal/controllers/order.go:27-136 | ends in the state of `Create`, or with its error in the state it found |
| Controllers.Handlers.OpenOrder | internal/controllers/order.go:78-133 | the transaction, its rollback, and the sync after the commit |
| Controllers.Handlers.ExecuteOrder | internal/controllers/order.go:108-130 | matches, applies and syncs: ends in the state of `Execute`, or with its error and the book untouched |
| Controllers.Handlers.MatchOrder | internal/controllers/order.go:108-115 | the market or the limit loop by the kind of the order, with the effect of `Match` |
| Controllers.Handlers.CancelOrder | internal/controllers/order.go:191-267 | ends in the state of `Cancel`, or with its error in the state it found |
| Controllers.Handlers.Deposit | internal/controllers/balance.go:14-51 | ends in the state of `Deposit`, or with its error in the state it found |
| Rooms.StepKeepsValid | internal/ws/wsServer.go:26-132 | every step of clients, publishers and listeners keeps the room invariant |
| Rooms.RunRegistersRooms | internal/ws/wsServer.go:80-132 | after any interleaving a market has a room exactly when somebody is in it, with exactly one listener that is not cancelled; all other rooms are empty |
| Rooms.RunHoldsPresent | internal/ws/wsServer.go:80-132 | told from the events alone: after any interleaving a client is in the room of a market if and only if it has joined it and not left it since, and the market has a room if and only if there is such a client |
| Rooms.RunDeliversInOrder | internal/ws/wsServer.go:26-56 | each client is sent the messages of a market in the order of publication, none of them twice |
| Rooms.SentToPresent | internal/ws/wsServer.go:45-56 | every message is sent to clients that have joined its market and not left it since |
| Rooms.GoneIsSentNothing | internal/ws/wsServer.go:110-132 | between leaving a market and joining it again a client is sent nothing of it |
| Rooms.RunDeliversPublished | internal/ws/wsServer.go:26-36 | every message sent in a market was published in that market |
| Rooms.UnsubscribedMisses | internal/ws/wsServer.go:26-31 | a listener never sends what was published before it subscribed |
| Rooms.CancelledStaysSilent | internal/ws/wsServer.go:33-43 | a cancelled listener that still runs never sends anything again |
| Rooms.PublishedIsSent | internal/ws/wsServer.go:26-56 | a message published while the listener is subscribed reaches everybody in the room who stays, once the inbox is worked off |
| Rooms.Room.BroadcastData | internal/ws/wsServer.go:45-56 | a pass over the clients sends to each of them exactly once |
| Rooms.WSServer.JoinRoom | internal/ws/wsServer.go:80-108 | joins the market's room, creating it with its listener if there is none; its clients are those from before and the new one |
| Rooms.WSServer.LeaveRoom | internal/ws/wsServer.go:110-132 | leaves it: its clients are those from before without the one; the last one cancels the listener and removes the room |
| Rooms.WSServer.Subscribe | internal/ws/wsServer.go:26-31 | opens the subscription of a listener |
| Rooms.WSServer.Select | internal/ws/wsServer.go:33-43 | one turn of the select loop: a waiting message is taken from the inbox and delivered to each client exactly once, unless the room is cancelled and the stop is preferred; else a cancelled listener stops; else nothing changes |

## Left out

- HTTP binding beyond the required fields, JSON, logging, CORS, routes, JWT and passwords: plumbing.
- The panic in the handler for an inactive market (it formats an error that is nil): the step fails with InvalidMarket and changes nothing, which is its effect on the store.
- SQL and Redis drivers, pipelines, timeouts and connection errors: a store is maps and sorted sequences, and a statement on it does not fail for outside reasons. A failed Redis sync after the commit is not modelled.
- Row locks and requests that overlap between match and commit: each handler call is one step.
- float64 rounding and NUMERIC(28,8) truncation: exact reals only.
- The payloads that the book publishes on order changes: a message in `Rooms` is an opaque number.
- Rooms.WSServer.Select: one turn of the listener's endless loop, not the loop; runs of turns are the events of `Rooms.Run`. Messages enter an inbox by the event `Publish`, which has no method, being Redis's doing.
- A client whose connection fails during a broadcast: it stays in the room until it leaves, as in the code; the failed send counts as sent.
- The statements without a transaction that repeat the ones modelled, and InitializeBalance: not on the path of creation and cancellation.
- Trade and transaction listings, candles, portfolio valuation, market and asset administration, market order-size bounds and fees (stored, never read by the order path): easy or unused.
- Whether the user who cancels owns the order: the handler does not ask, and neither does the model.
