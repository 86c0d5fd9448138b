# Verified model of the degenerate trading system

This project models the live-trading engine, the review protocol between bot and dashboard, and the two discovery
loops of the system, and proves properties of them with Dafny 4.11. `dafny verify dfyconfig.toml` checks everything.

| module | models |
|---|---|
| `Models` | domain types, market keys, conversion of wire messages |
| `Money` | exact prices, limit and hedge rounding, the return of an accepted pair |
| `Balances` | trade sizing and the tracked balances |
| `OrderBooks` | the two routes from a venue's book to the price of a leg |
| `Quotes` | the top-of-book as a last-writer-wins register |
| `WatchIndex` | the forward and reverse index of watches, on values |
| `Feeds` | venue subscriptions and background removals |
| `Evaluation` | when a watched pair becomes a request, and what one tick enqueues |
| `PickerComms` | the watching task: a class that changes its indexes and the shared state in place |
| `PickerExec` | the executing task: a class over the shared state and the balances |
| `Outlays` | what trades really cost against what is budgeted and charged, one trade and many |
| `Handoff` | the two tasks interleaved at every access to the queue, the in-flight set and the cooldowns |
| `Tasks` | that the code of both classes, uninterrupted, takes exactly the steps of `Handoff` |
| `ArbServer` | the table of arbs, its statements, and the server's message step |
| `Provenance` | review pages, dashboard handlers, table, lossy FIFO channels and bot as one transition system |
| `Identity` | that every pair in that system is under the id derived from its own tokens |
| `Progress` | what each access of that system does, and that a confirmed pair gets traded |
| `Races` | what that system does not rule out: legs nobody confirmed, orders after a delete |
| `Backfill` | the paged backfill with retries, shutdown and dedup |
| `VectorStore` | the batch similarity search |

Reading notes:

- Decimals and 32-bit floats are exact reals; limits are whole cents; sizes on Kalshi are whole contracts.
- Clock readings, venue answers, network failures and shutdown polls are parameters, quantified over in every theorem.
  A clock parameter gives each id its own reading, so evaluations within one tick need not share an instant.
- In `Handoff` and `Provenance` a run is any sequence of actions, and an action that is not possible changes nothing;
  a statement about all sequences is therefore a statement about all interleavings. `log`, `early`, `confirmed`,
  `ranFor` and the legs `shown` in a handler are history: no step reads them to decide what to do.
- A correlation id is a hash of a pair's two tokens. `Naming` stands for it: the theorems that need it take the hash
  and the joining of the two tokens to be injective, and a token to be of one venue.
- `upsert_points_chunked` belongs to a library outside the repository; it is taken to send its chunks in order and to
  stop at the first one refused, of which nothing is stored.
- Iteration over a set picks any element next, so statements about loops over ids hold for every order.

Where the code does not do what one might expect, the model follows the code:

- The book's comment says both indexes are in step at all times (`src/picker.rs:29`). Registration does not clean up
  what a re-registered id watched before; `WatchIndex.RegisterKeepsIndexIff` gives the exact condition. Ids derived
  from tokens always meet it (`WatchIndex.NamedKeepsLegs`), and no other id ever reaches the bot
  (`Identity.EveryRunIsNamed`), so the stale entry of `WatchIndex.ReRegistrationCanStrand` does not occur in the system.
- The send of a request and its in-flight mark are two steps (`src/picker.rs:945-959`). `Handoff.EarlyReleaseHappens`
  shows a run that leaves a mark behind, `Handoff.EarlyIsForever` that the pair is then never requested again, and
  `Handoff.MarksExactlyIffNoneEarly` and `Handoff.OneStepSendMarksExactly` when the marks are exact.
- A pair re-added while the unsubscribe of one of its feeds is still running ends up watched and unsubscribed:
  `Feeds.WatchKeepsSecureIff` and `Feeds.OfferedTooSoon`.
- The correlation id names the two tokens but not the sides, a click on "confirm and run" carries only the id, and its
  handler reads the row afresh and later sets running whatever row has the id by then. `Provenance.EveryRunTracesIds`
  proves that every id traded was confirmed. For the legs it takes two comparisons the code does not make, of the row
  with the page at the read and with what was read at the update: `Provenance.RunsAreFaithfulIff` proves that every
  click runs what it was shown if and only if both hold throughout, and `Races.UnconfirmedLegsCanTrade` that with
  either one left out legs nobody was shown get traded.
- Trades are sized at the quoted prices and bought at limits that may be rounded up, so one can cost more than its
  budget; `Outlays.CanOverspendIff` says exactly when.
- Polymarket prices are stored without sizes, which `PickerComms.Valid` keeps through every handler; in optimistic mode
  no pair with a Polymarket leg is ever sized (`Outlays.OptimisticPolyIsNotSized`).
- A request that is queued when its id is deleted is still executed; `Races.OrderAfterDeleteIff`.
- The hedge is a resting order that may be refused or never sell. `PickerExec.HedgeCoversGap` is about the order as
  submitted, `PickerExec.HedgedTradesReturn` about any part of it that sells.
- The report of a hedge gives the whole excess and the unrounded price, not what was submitted;
  `PickerExec.ReportsAccount` bounds the difference.
- The executor accepts prices up to 0.985 although requests are emitted below 0.95; the submitted limits then sum to at
  most 99 cents, so an accepted trade returns at least a cent per matched contract.
- Close-time guards reject only closes in the coming window, not closes already past; the ten-minute guard is skipped
  when either close time is not a representable date.
- The README says balances are refreshed before a trade; the code refreshes them after each one (`src/picker.rs:1201-1210`).
- A comment gives the minimum trade size as a contract count with default 5; the code uses dollars with default 2.

## Model

| member | source | states |
|---|---|---|
| Models.MarketKeyInjective | src/models.rs:562-564 | two keys are equal exactly for the same token on the same venue, and the venue can be read off a key |
| Models.Minify | src/models.rs:603-642 | a leg converts exactly when token, discovery, market info, market id, close time, platform and side are all present and meaningful; nothing it carried is lost, its key is its own, and an error names a part really at fault |
| Models.MinifyPair | src/models.rs:644-657 | a pair converts exactly when both legs do; each half carries its own leg, under the given id |
| Money.RoundHalfEven | src/picker.rs:1695-1696 | the rounded value is within a half, and on a tie it is even; no other integer satisfies both |
| Money.SubmittedLimitsSum | src/picker.rs:1305-1328 | for accepted prices and any pair of venues the two submitted limits sum to at most 99 cents, stronger than the 0.995 that halves of a cent allow |
| Money.SubmittedLimitsSumTight | src/picker.rs:1623-1626 | the 99 cents are reached by an accepted pair of prices |
| Money.AcceptedTradeReturns | src/picker.rs:1305-1405 | for accepted prices, any fills paid at the limit or better and both outcomes, payoff less outlay is at least a cent per matched contract less the unmatched ones at the over-filled leg's limit |
| Money.AcceptedTradeReturnsTight | src/picker.rs:1305-1405 | that bound is met with equality by some fills |
| Money.HedgeAboveBuyIff | src/picker.rs:1749-1767 | the hedge limit is at most 99 cents, and above the leg's buy limit exactly when that limit is below 99 |
| Money.AcceptedHedgeAboveBuy | src/picker.rs:1462-1499 | for accepted non-negative prices the hedge of either leg sells strictly above its buy; on Polymarket this rests on ties to even |
| Money.HedgeSize | src/picker.rs:1766-1818 | the hedge size is whole (hundredths on Polymarket), within one contract below the excess on Kalshi and within 0.005 of it on Polymarket |
| Balances.ConfiguredDecimal | src/picker.rs:1016-1049 | the configured value whenever it is given and in range, otherwise the default |
| Balances.BudgetIsGreatest | src/picker.rs:1090-1094 | the budget is the greatest whole number of dollars within the fraction of the Kalshi and of the Polymarket balance |
| Balances.SizeForIsGreatest | src/picker.rs:1100-1119 | the size fits budget and liquidity, and no larger whole count does |
| Balances.ComputeSizeIsGreatest | src/picker.rs:1090-1119 | for a positive unit cost, a count is returned if and only if it is the greatest fitting one and is worth the minimum |
| Balances.ComputeSizePositive | src/picker.rs:1100-1119 | a returned count is positive, so the zero-size refusal at lines 1630-1632 is not reached |
| Balances.TradeKeepsFraction | src/picker.rs:1330-1416 | one trade leaves on both venues at least (1 - fraction) of the smaller balance, also with both legs on one venue |
| Balances.TradesKeepFraction | src/picker.rs:1090-1140 | over any sequence of trades with no refresh the Kalshi and the Polymarket balance each keep at least (1 - fraction)^n of a common starting floor, and never go negative |
| Balances.BalanceTracker.constructor | src/picker.rs:1067-1075 | balances start at zero; fraction and minimum are the configured ones |
| Balances.BalanceTracker.Refresh | src/picker.rs:1216-1251 | a failed Kalshi call changes nothing, a failed Polymarket call keeps the last value, cents become dollars |
| Balances.BalanceTracker.DeductFill | src/picker.rs:1121-1140 | each leg's cost is taken from its own venue's balance, and nothing else changes |
| OrderBooks.SeedAgreesWithMetrics | src/picker.rs:739-848 | whenever the seeded price and the executor's metric both exist they are equal, for any book; and exactly when each exists |
| OrderBooks.MetricsAreTheLegs | src/picker.rs:1860-1941 | the executor's price and size are those of the last opposing bid of the leg's own Kalshi book, or of the first ask of its Polymarket book, and exist exactly when that level is there and parses |
| OrderBooks.SeedShowsTheBest | src/picker.rs:739-848 | a seed carries the last bids of Kalshi or the first of both sides of Polymarket, a missing bid as zero, no sizes, and the venue's time if it gives one |
| OrderBooks.TickAgreesWithMetrics | src/picker.rs:965-985 | price and size read off a tick that shows the best of both sides are those of the executor's metrics, for either leg |
| OrderBooks.PolyTickAgreesWithMetrics | src/picker.rs:965-985 | read for either side, a Polymarket tick that shows the best ask gives the executor's price |
| OrderBooks.BothRoutesFindTheCheapest | src/picker.rs:1860-1941 | on ascending Kalshi books with both sides present, both routes give the minimum over all opposing resting bids |
| Quotes.StoredIsTheWinner | src/picker.rs:850-880 | the stored value is that of the first arrival with the greatest timestamp, if newer than what was there, otherwise the old value |
| Quotes.StoredTimestampsRise | src/picker.rs:850-880 | a market's stored timestamp never falls and rises strictly whenever the value changes |
| Quotes.PermutationsAgree | src/picker.rs:850-880 | with distinct timestamps per market, any permutation of the updates ends in the same map |
| WatchIndex.DualIndexIsReverseIndex | src/picker.rs:27-66 | the two indexes are in step exactly when the reverse one equals the one computed from scratch |
| WatchIndex.RegisterKeepsIndexIff | src/picker.rs:660-678 | registration keeps the indexes in step if and only if the id was new or the new watch covers all its old markets |
| WatchIndex.NamedKeepsLegs | src/picker.rs:346-356 | an id derived from two tokens is always registered with the same two markets, so registration keeps the indexes in step |
| WatchIndex.ReRegistrationCanStrand | src/picker.rs:660-678 | an id not derived from its tokens, registered again without its old anchor market, leaves a stale entry |
| WatchIndex.DropKeepsIndex | src/picker.rs:680-697 | removing an id leg by leg erases it from every entry, drops exactly the entries left empty, and keeps the indexes in step |
| WatchIndex.ErasedMarketIsGone | src/picker.rs:551-565 | once all watchers of a market are erased it has no entry and no record has a leg on it |
| Feeds.SecureIffStaysSubscribed | src/picker.rs:699-731 | watched feeds stay subscribed whatever pending removals complete if and only if they are subscribed and none is pending |
| Feeds.WatchKeepsSecureIff | src/picker.rs:262-299 | adding and watching a pair keeps that if and only if no removal of either leg is pending |
| Feeds.OrderlyRunsStaySecure | src/picker.rs:262-311 | over every run in which removals finish before their feed is offered again, every watched feed is subscribed, with shared legs, half-subscribed pairs and refused removals |
| Feeds.OfferedTooSoon | src/picker.rs:680-731 | a pair that is dropped, both its feeds with it, and offered again before their removals are done ends up watched with neither feed subscribed |
| Feeds.FeedsClient.AddMarketTicker | src/platforms/polymarket.rs:110-124 | succeeds exactly when the feed ends up subscribed; an existing subscription needs no venue answer |
| Feeds.FeedsClient.RunRemoval | src/platforms/kalshi.rs:149-179 | Kalshi forgets the ticker whatever the venue answers, Polymarket only on success, and any safe set of feeds stays safe |
| Evaluation.DispatchOneMore | src/picker.rs:882-886 | evaluating one more id extends the effect of a tick by exactly that id, independently of order |
| Evaluation.RequestedIff | src/picker.rs:889-962 | with room in the queue an evaluation makes a request exactly for an id that is not in flight, not within its cooldown, watched, not closing within the ten minutes ahead, priced on both legs, and costing more than nothing and less than 95 cents |
| Evaluation.RequestsCarryTheirLegs | src/picker.rs:934-958 | a request carries both legs with the ask and the size that each would be bought at |
| Evaluation.FastPathIsFullScan | src/picker.rs:882-962 | with queue room, the ids indexed under the market yield exactly the requests a scan of every record would |
| PickerComms.PickerComms.constructor | src/picker.rs:97-125 | starts with empty indexes in step, nothing watched and nothing unsubscribed |
| PickerComms.PickerComms.EvaluateArb | src/picker.rs:889-962 | enqueues and marks exactly the eligible id when there is room, forgets exactly an expired cooldown, changes nothing else |
| PickerComms.PickerComms.OnPriceUpdate | src/picker.rs:850-887 | stores only a newer tick; a stale one changes nothing; a fresh one has the effect of evaluating each indexed id once, in any order |
| PickerComms.PickerComms.RegisterArb | src/picker.rs:660-678 | the new indexes, and that the whole invariant survives if and only if the watch is under the id of its own tokens |
| PickerComms.PickerComms.DropLeg | src/picker.rs:682-731 | a market left without watchers, and only then, loses its entry and price and has one removal spawned |
| PickerComms.PickerComms.UnregisterArb | src/picker.rs:680-737 | the id leaves both indexes, markets still watched keep entry and price, the feeds spawned for removal are exactly those of markets nobody watches any more |
| PickerComms.PickerComms.EvictMarket | src/picker.rs:551-565 | afterwards exactly the records with a leg on the market are gone, and the market has no entry; other watched markets keep their price |
| PickerComms.PickerComms.DeleteArb | src/picker.rs:450-464 | the id is unregistered and its deletion announced |
| PickerComms.PickerComms.HandlePoly | src/picker.rs:466-571 | price messages store exactly their parsed updates in order, watched or not, each evaluating the indexed ids once; a resolution removes exactly the pairs with a resolved leg; all invariants kept |
| PickerComms.PolyTickIsStored | src/picker.rs:476-547 | a price message that parses and is newer leaves its own bid, ask and time as its asset's quote; any other stores nothing; no other market changes |
| PickerComms.PolyLegPaysTheAsk | src/picker.rs:965-974 | either side of a Polymarket leg on that asset is then priced at the message's ask |
| PickerComms.PickerComms.HandleKalshi | src/picker.rs:573-651 | a tick of an unwatched or unpriced market is ignored, any other is stored if newer and evaluates the indexed ids once; a new close date re-dates every record's legs on the market; an ended market is gone everywhere; all invariants kept |
| PickerComms.PickerComms.Reclose | src/picker.rs:617-635 | re-dating the indexed ids re-dates exactly the legs that a pass over all records would |
| PickerComms.ReclosedDates | src/picker.rs:617-643 | re-dating sets the close time of exactly the legs on the market and changes nothing else of any record |
| PickerComms.PickerComms.SeedTob | src/picker.rs:739-848 | an available seed has the effect of a tick of the leg's market, and a watched leg's seed keeps the invariant |
| PickerComms.PickerComms.WatchPair | src/picker.rs:301-311 | registers a subscribed pair and then seeds both prices, anchor first; the whole invariant survives if and only if the watch is under the id of its own tokens, and the feeds then stay safe if and only if no removal of either is pending |
| PickerComms.PickerComms.FindArb | src/picker.rs:213-317 | which of the five outcomes occurs, with the indexes, prices and subscriptions each leaves; closing within the hour removes and announces; a registered pair has both legs subscribed; with a pair under the id of its own tokens the whole invariant holds after every outcome |
| PickerComms.AddressedIff | src/picker.rs:218-249 | a pair is gone on with exactly when both markets are there, on a known venue and closing on a representable date |
| PickerComms.ClosesSoonIff | src/picker.rs:251-260 | it is removed for closing soon exactly when a market closes in the coming hour, not when it closed already |
| PickerExec.HedgeLeavesLittle | src/picker.rs:1738-1818 | the unhedged rest is in [0, 1) on Kalshi, the skip included, and within 0.005 on Polymarket; skipped exactly below one Kalshi contract |
| PickerExec.SizedBuysAreSubmitted | src/picker.rs:1623-1632 | a positive count at an acceptable price is always submitted, for that count, on either venue |
| PickerExec.BuyRefusedIff | src/picker.rs:1623-1632 | a buy is refused before it is sent exactly on Kalshi, for a negative price, no contracts, or a number past 64 bits |
| PickerExec.HedgeSkippedIff | src/picker.rs:1749-1770 | a hedge is skipped exactly on Kalshi, under one contract or past 64 bits |
| PickerExec.TradesAreGuarded | src/picker.rs:1305-1382 | orders go out only for accepted prices, for a positive affordable available count, each on its own leg, with limits summing to at most 99 cents |
| PickerExec.TradesAtOwnPrices | src/picker.rs:1269-1303 | a trade in HTTP mode has fetched both books, and buys each leg at the price and within the size of its own; in optimistic mode at those of the request |
| PickerExec.OwnPriceIsCheapest | src/picker.rs:1860-1941 | on an ascending Kalshi book that price is the cheapest against every opposing bid |
| PickerExec.TradesReturn | src/picker.rs:1305-1405 | whatever the venues fill and whichever side pays, a trade's payoff less outlay is at least the guaranteed amount |
| PickerExec.HedgeCoversGap | src/picker.rs:1458-1598 | the hedge as submitted is a sell of the over-filled leg, and leaves under a contract of the gap uncovered on Kalshi and at most 0.005 on Polymarket; it says nothing of what sells |
| PickerExec.HedgedTradesReturn | src/picker.rs:1365-1598 | whatever part of the hedge sells, none if skipped, refused or never met, and whichever side pays, the return is at least a cent per matched contract and per contract sold, less the contracts still unmatched at their buy limit and any sold beyond the gap |
| PickerExec.HandlingIsATrade | src/picker.rs:1407-1416 | what handling an accepted request charges is one trade of the balance bound |
| Outlays.RequestsKeepFraction | src/picker.rs:1090-1416 | over any number of handled requests with no refresh, whatever the non-negative prices, fills and outcomes, both tracked balances keep at least (1 - fraction)^n of a common starting floor |
| Outlays.LimitOutlayWithin | src/picker.rs:1100-1119 | a count sized at the quoted prices costs, at the submitted limits, at most its budget and a cent a contract; on two Kalshi legs at most its budget |
| Outlays.CanOverspendIff | src/picker.rs:1330-1405 | venues that honour the limits can take more than the budget if and only if the whole count at the limits costs more than it |
| Outlays.OverspendHappens | src/picker.rs:1330-1405 | they can: 1000 contracts sized for 985 dollars are bought for up to 990 |
| Outlays.OptimisticPolyIsNotSized | src/picker.rs:492-498 | in optimistic mode a request made from stored prices for a pair with a Polymarket leg is rejected for its prices or never sized |
| PickerExec.PickerExec.HandleExecutionRequest | src/picker.rs:1253-1602 | the outcome, balances and messages; every path releases the id as its last access, after a cool-down stamp that is made exactly on the two cooling paths |
| PickerExec.PickerExec.PlaceOrders | src/picker.rs:1358-1602 | both buys, the charge for the matched count, the hedge and the reports, ending in the release |
| PickerExec.ReportsAccount | src/picker.rs:1410-1598 | the server is told of a trade exactly when something filled, once, with the true fills and their difference; of a hedge exactly when one was placed, overstating it by less than a contract and a cent on Kalshi and within half of the last digit on Polymarket; in either order |
| Handoff.StepKeepsInv | src/picker.rs:889-962 | every access of either task keeps the whole invariant |
| Handoff.EveryRunIsSafe | src/picker.rs:889-962 | in every interleaving at most one request per id is active, every active id is marked when the marks are read, no request is sent within the cooldown of an earlier stamp, and an expired removal removes the stamp it read |
| Handoff.ExecutorGoesOn | src/picker.rs:1188-1212 | an executor that holds no request takes the oldest one next, whatever it did before |
| Handoff.RequestedAgain | src/picker.rs:889-962 | a run in which one id is requested, received, stamped and released and, once its cooldown has passed, all that again |
| Handoff.MergedIsBoth | src/picker.rs:945-959 | sending and marking in one step is the two steps with nothing between |
| Handoff.MarksExactlyIffNoneEarly | src/picker.rs:945-959 | between evaluations the marks are exactly the active ids if and only if no id was released before it was marked |
| Handoff.OneStepSendMarksExactly | src/picker.rs:945-959 | with send and mark in one step the marks are exactly the active ids in every reachable state |
| Handoff.EarlyIsForever | src/picker.rs:890-892 | an id released early is never requested again in any continuation |
| Handoff.EarlyReleaseHappens | src/picker.rs:945-959 | a run that releases an id between its send and its mark |
| Tasks.EvaluationIsARun | src/picker.rs:889-962 | one evaluation, whatever its outcome, is a run of the watching task's steps |
| Tasks.ChecksAreARun | src/picker.rs:890-904 | the two checks end cleared exactly when the id is neither in flight nor cooling, with an expired cooldown removed |
| Tasks.HandlingIsARun | src/picker.rs:1313-1323 | the accesses of a handled request are a run of the executing task's steps and end with the id released |
| ArbServer.DecodedAreExactlyTheReadable | web/server/grpc.go:189-201 | the ids of a reply are exactly the selected rows that decode |
| ArbServer.ArbServer.InsertNewArb | web/service/repository/postgres/query.sql.go:470-496 | a new row starts with both flags false; an existing row is untouched |
| ArbServer.ArbServer.UpdateArbConfirm | web/service/repository/postgres/query.sql.go:581-595 | the same rows, payloads and kinds, every other row untouched; the row, if there is one, is confirmed and its running flag kept |
| ArbServer.ArbServer.UpdateArbStatus | web/service/repository/postgres/query.sql.go:613-641 | the same rows, payloads and kinds, every other row untouched; the row, if there is one, is confirmed and running, and is returned with its own payload; without one nothing is returned |
| ArbServer.StatementsKeepFlags | web/service/repository/postgres/query.sql.go:470-641 | no statement leaves a row running and unconfirmed, and the order of the two updates does not matter |
| ArbServer.ArbServer.DeleteArbs | web/server/grpc.go:227-231 | exactly the listed rows are gone |
| ArbServer.ArbServer.RunningReply | web/server/grpc.go:184-212 | ids and arbs have one length, each arb is that of its own row, and the ids are exactly the running cross-platform rows that decode |
| ArbServer.ArbServer.ProcessEbo | web/server/grpc.go:95-278 | the table after each message, and that only a request for the cross-platform running arbs is answered |
| Provenance.StepKeepsTraceable | web/server/handlers.go:338-384 | every step of human, handlers, channels, server and bot keeps provenance: at the grain of ids always, at the grain of legs when both comparisons hold |
| Provenance.EveryRunTracesIds | web/server/handlers.go:338-384 | over every run, every id in a running row, a message, a record, a request or an order was confirmed and run by a human before |
| Provenance.StepKeepsLegsIff | web/server/handlers.go:346-376 | a step keeps every click faithful to its page if and only if the row read shows the page's legs and the row updated shows the legs read |
| Provenance.RunsAreFaithfulIff | web/server/handlers.go:338-384 | over every run, every click runs the legs it was shown throughout if and only if both comparisons hold at every step |
| Provenance.GuardedRunsTraceLegs | web/server/handlers.go:338-384 | with both comparisons, over every run only legs shown to and accepted by a human are in a running row, a run command or reply, a record, a request or an order |
| Provenance.OnlyConfirmationRuns | web/service/repository/postgres/query.sql.go:613-619 | a row becomes running only by the update that ends a confirm-and-run of its id |
| Provenance.ReplyIsTheServers | web/server/grpc.go:182-212 | the reply in the transition system is exactly the one the server's message step makes |
| Provenance.DeletesRowByRow | web/server/grpc.go:221-231 | the statements of a delete by the bot, each its own step, remove exactly the listed rows |
| Progress.ConfirmedPairTrades | web/server/handlers.go:338-384 | a pair that is shown, confirmed and left alone runs on the server and is watched and traded by the bot |
| Progress.ForwardingKeepsOrder | web/server/grpc.go:71-92 | commands and replies are streamed oldest first, each behind all that went before |
| Progress.HistoryIsTrue | web/server/handlers.go:338-384 | only a click on an open page is recorded as a confirmation |
| Progress.EveryPairIsAccepted | src/picker.rs:180-187 | every pair of a reply is registered, dropped or removed under its own id, and no other record changes |
| Progress.HandlingAnswers | src/picker.rs:160-202 | what each message from the server does to the records and makes the bot send |
| Progress.ExecutorTakesInOrder | src/picker.rs:1195-1203 | requests are traded or declined oldest first |
| Identity.EveryRunIsNamed | src/picker.rs:346-356 | over every run, every row, message and record is under the id of its own two tokens |
| Races.UnconfirmedLegsCanTrade | web/server/handlers.go:346-376 | for each of the two comparisons, a run in which the other one always holds and all ids are derived trades legs that no human was shown: from a page left open while the pair was deleted and selected again with another side, or after a delete and a waiting report between a handler's send and its update |
| Races.OnlySidesDiffer | src/picker.rs:346-356 | pairs under one derived id differ in their sides at most |
| Races.OrderAfterDeleteIff | src/picker.rs:196-202 | once the bot has processed a delete, and until the id is registered again, an order for a pair of it can follow if and only if a request for that pair was queued or in execution |
| Backfill.DedupKeepsFirstOccurrences | src/platforms/polymarket.rs:552-558 | the result is the first occurrence of every condition id, and nothing else, in the original order |
| Backfill.TakenIsAllOrWholePages | src/platforms/polymarket.rs:487-566 | a tag's list is taken whole if and only if every page with a market is served; otherwise a whole number of pages is taken |
| Backfill.ServesIff | src/platforms/polymarket.rs:497-548 | a page is served exactly when one of three tries succeeds with nothing but transient errors before it |
| Backfill.AllServedTakesAll | src/platforms/polymarket.rs:487-566 | with every page served, what is deduplicated is the concatenation of all lists |
| Backfill.Collector.AddPage | src/platforms/polymarket.rs:552-558 | keeps the seen set and the container the keys and the dedup of everything received |
| Backfill.Collector.FetchPage | src/platforms/polymarket.rs:497-548 | the page if an attempt succeeds before a permanent error and within three tries, nothing otherwise; terminates |
| Backfill.Collector.CollectTag | src/platforms/polymarket.rs:487-566 | takes what the paging specification takes, or whole pages before a shutdown; terminates |
| Backfill.Collector.Collect | src/platforms/polymarket.rs:472-567 | the result is the dedup of a prefix of every list, complete without shutdown, page-aligned in the tag a shutdown falls in and empty after it |
| VectorStore.ValidItemsAreThose | src/vector_store.rs:298-307 | exactly the valid inputs are kept, in order, each with its own filter |
| VectorStore.Convert | src/vector_store.rs:298-307 | the loop keeps those |
| VectorStore.CreatePoints | src/vector_store.rs:454-461 | each point is an input's own payload with its own vector, cut to the shorter list |
| VectorStore.BuildQueries | src/vector_store.rs:317-332 | each query is a point's vector under the same input's filter |
| VectorStore.BuildEvents | src/vector_store.rs:351-371 | in input order, one event per non-empty response, each from its own input; fails exactly when a response does not decode |
| VectorStore.StoredIsAllOrChunks | src/vector_store.rs:215-238 | everything is stored exactly when every chunk is accepted; otherwise whole chunks are stored and the next one was refused |
| VectorStore.InsertMany | src/vector_store.rs:215-238 | what is stored is that prefix, also when the insert fails, which it does exactly when points are missing |
| VectorStore.MultipleSearchAndInsert | src/vector_store.rs:289-374 | the batch fails, emits nothing, or emits aligned events; nothing is stored unless the counts agree, and a failed insert leaves whole chunks |
| VectorStore.BatchIsAligned | src/vector_store.rs:333-348 | against a search that answers query by query, every event is built from its item's own payload and filter and the vector at its own position, and a short embedding list is caught |
| VectorStore.BatchIsOwn | src/vector_store.rs:289-374 | with an embedding that goes text by text beside it, every event carries the finds of its own market's text under its own filter, every valid input with a find has its event, and every stored point has the vector of its own text |

## Left out

- HTTP, WebSocket and gRPC transport, authentication, order signing and message encoding: their results are parameters.
- 32-bit float rounding, 28-digit decimal division error and decimal overflow: arithmetic is exact.
- An order call that fails is taken to have traded nothing, as the code does; an order that filled behind a failed call is not modelled.
- The embedding model and the ranking inside the vector database: embedding and search are arbitrary functions.
- Kalshi subscription ids and resubscription after a reconnect: they depend on server behaviour that is not in the repository.
- The gRPC client's reconnect loop, the cleanup jobs, startup wiring, environment parsing other than the two sizing values.
- The leg selections of a similarity hit and their conversion to discovered pairs: they end in a discovery message, which carries no authority to trade.
- Similarity hits, orders and excess fills as database rows; the order of rows by creation time (the reply is proved for every order).
- Dashboard pages, templates, scripts, styles and tag tables.
- A statement of the server that fails while the ones around it succeed.
- Whether two markets really pay on opposite outcomes: the payoff theorems take it as given.
- Exchange fees: they are not in the code's own arithmetic.
- Background removals running in the middle of one find_arb call; `Feeds` covers removals between calls and states when that matters.
- Handoff.EveryRunIsSafe: the executor never goes away in this protocol; a closed queue is covered by `PickerComms.PickerComms.EvaluateArb`.
