# Verified models of the Solana exchange and token programs

This project models, in Dafny, the spot exchange of `13-solana-spot-exchange-lab` from order entry to on-chain
settlement, and three smaller token programs, and proves what their layers promise each other over every run.

Every layer appears twice. A functional model says what one call does to the state; laws about that model hold for every
input and every run. A class with the source's fields and loops computes the same thing step by step, and each of its
methods is proved to give the model's reply and the model's new state.

| layer | model and class | laws |
|---|---|---|
| orders, price levels, matching | `Orders`, `OrderBook`, `Matching` | `OrderBook`, `MatchingLaws` |
| balances and event-sourced application | `Balances`, `ExchangeModel`, `Application` | `ExchangeLaws`, `TradeLaws`, `ExchangeRuns` |
| market actor with its journal and counters | `ActorModel`, `Runtime` | `ActorModel`, `ActorReplies` |
| signed orders | `Preimages`, `SignedFills`, `Ed25519Check` | the same files |
| on-chain settlement ledger | `SettlementModel`, `SpotSettlement` | `SettlementLaws`, `SignedReceipts`, `SettlementExact` |
| bridge from fills to requests, settlement ids | `Bridge` | `Bridge` |
| the whole path, exchange to chain | | `Settleability`, with concrete runs in `SettleabilityExample` and `SelfTradeExample` |
| the service's queue and the settlement worker | `Pipeline`, `Worker` | the same files, with a concrete run in `ServiceExample` |
| mailbox to chain | | `AnsweredFills`, with a concrete run in `AnsweredExample` |
| multi-issuer supply (`06-issuance-core`) | `Issuance` | `Issuance`, `IssuanceHistory` |
| redemption vault and admin log (`08-redemption-and-admin`) | `Redemption` | `RedemptionLaws`, `RedemptionHistory` |
| daily-limit transfer hook (`07-transfer-hook-compliance`) | `Compliance` | `Compliance`, `ComplianceHistory` |

`Types` holds the machine integers as ranges, keys and the shared result types, `SettlementTypes` the records of the
settlement program, and `Sums` the sums over sequences and maps that the ledgers are stated with.
`dafny verify dfyconfig.toml` checks everything.

The central results:

- **Every fill settles** (`Settleability.EveryFillSettles`). The exchange reserves against an order's original quantity
  and never debits; the chain moves balances between traders. Conservation of quantity, solvency of every trader, the
  ledger of deposits and reservations and the on-chain invariants together show that, under the premises named below, no
  check of the bridge or of the settlement program refuses a fill between two traders, in whatever order fills settle.
- **The service settles them** (`Worker.ServiceSettles`, `EveryServedFillSettles`). However the handlers interleave that
  number fills, bridge and queue them, the worker's requests are accepted if and only if the fill is between two traders
  and the id had no receipt before. That no id comes twice is derived from the counter, not assumed.
- **The answers are the log** (`ActorReplies.AnsweredTradesAreTheTrades`, `AnsweredFills.AnswersSettle`). The fills a
  client is answered with are the trades of the log, in order; an actor is a run of the exchange, so what the service
  serves from its answers settles.
- **Price-time priority** (`MatchingLaws.GreedyIsPriceTime`, `PriceTimeIsGreedy`). The loops over price levels compute
  the one outcome that price-time priority allows.
- **Replay and journal** (`ExchangeRuns.ReplayRebuilds`, `ActorModel.JournalProtocol`, `JournalRecovers`). The log is
  the state; the journal is the log unless the actor stopped on a deposit that overflows.
- **The chain equals its history** (`SettlementLaws.ChainIsSound`, `SignedReceipts.EveryReceiptIsSigned`,
  `SettlementLaws.CancelledByItsTrader`).
- **Sums over unbounded account maps** (`Issuance.SupplyStaysBalanced`, `RedemptionLaws.DeskIsSound`,
  `Compliance.DailyCapHolds`).
- **State is history** (`RedemptionHistory.RequestsAreTold`, `IssuanceHistory.HistoryIsTold`,
  `ComplianceHistory.SettingsAreTold`). What the successful instructions of a run were determines the state: who owns a
  request, what a key minted, which limit is in force.
- **Exactly when, and why not** (`SettlementExact.SignedExactly`, `UnsignedExactly`, `ActorReplies.AnsweredExactly` and
  their companions). Each program and the actor accept exactly the calls that meet a stated condition, and no error they
  return is untrue.

Where the code is weaker than it reads, the laws say exactly when:

- Applying a foreign event changes balances and book before it reports a replay mismatch
  (`ExchangeLaws.FailedApplyLeavesTrace`, with the input in `ExchangeLaws.MismatchExample`).
- A deposit is journaled before its overflow is noticed (`ExchangeLaws.DerivedDepositApplies`,
  `ActorModel.JamsExactly`); after that the journal no longer replays (`ActorModel.JournalRecovers`, with the input in
  `ActorModel.RestartFails`).
- A balance that fails to reserve can already be lowered (`Balances.FailureLeavesTrace`, with the input in
  `Balances.FailureExample`); the application is atomic because it works on clones.
- A rotated-away issuer keeps its statistics, so switching it back on breaks the supply sum
  (`Issuance.BalancedUntilRetiredBurn`, with the input in `Issuance.RetiredBurnBreaksSupply`).
- The hook resets a counter whenever the day differs, so a transfer on an earlier day opens that day's allowance again
  (`Compliance.CountersTrueUntilReopened` and `StepKeepsCap`, with the input in `Compliance.ReopenedDayBreaksCap`). A
  clock that never goes back is enough to rule that out (`Compliance.DailyCapHolds`). Without it a transfer keeps the
  cap exactly when the true total allows it (`Compliance.TransferKeepsCap`), and counters err on one side only
  (`Compliance.NeverOverstates`).
- The exchange lets a trader trade with itself, and no such trade can be settled (`Settleability.SettlesExactly`,
  `SelfTradeNeverSettles`, with the input in `SelfTradeExample.SelfTradeHappens` and `SelfTradeIsStuck`).
- Settlement ids are counted in memory. A restarted service hands out the same ids again, and the chain refuses those
  that have a receipt (`Worker.RestartRepeatsIds`, with the input in `ServiceExample.RestartLosesOne`).

Premises that the source does not enforce are stated where they are used: distinct order ids (`Settleability`), a signed
order that is not replaced by a different one under its id (`Pipeline.Steady`), a collision-free hash, and different keys
for different traders.

## Model

| member | source | states |
|---|---|---|
| `Settleability.EveryFillSettles` | 13-solana-spot-exchange-lab/programs/spot-settlement/src/instructions/settlement.rs:226-328 | Main theorem. After any sequence of exchange commands with distinct order ids, any selection of the fills between different traders, whose own orders are mirrored by unexpired signed orders and whose traders hold on-chain at least what they deposited off-chain, settles in any order under unused ids; no bridge or program check fails, and every balance, order counter and receipt ends where the fills say |
| `Settleability.SettlesExactly` | 13-solana-spot-exchange-lab/programs/spot-settlement/src/instructions/settlement.rs:421-425 | The condition on the selection is exact: it settles if and only if no trader in it trades with itself; self-trades elsewhere in the log do not matter |
| `Settleability.EveryBatchBridges` | 13-solana-spot-exchange-lab/crates/relayer/src/application_bridge.rs:45-98 | Every batch the engine produced is turned into exactly one request per fill, in order, numbered without gaps from the first id, with the fill's price and quantity |
| `Settleability.SubmitSettles` | 13-solana-spot-exchange-lab/programs/spot-settlement/src/instructions/settlement.rs:226-328 | One step of the main theorem: with some trades already settled, any further trade between two different traders is accepted by bridge and program, and exactly its movements are added |
| `Settleability.SelfTradeNeverSettles` | 13-solana-spot-exchange-lab/programs/spot-settlement/src/instructions/settlement.rs:421-425 | The converse: a trade of one trader with itself is never accepted, whatever the chain holds |
| `Settleability.LateNeverSettles` | 13-solana-spot-exchange-lab/programs/spot-settlement/src/instructions/settlement.rs:427-433 | A trade is never accepted in a slot past the expiry of either of its two stored orders |
| `Settleability.BatchNamesParties` | 13-solana-spot-exchange-lab/crates/application/src/settlement.rs:16-64 | A batch carries its command, and each intent names buyer, seller, both orders, price and quantity of its trade |
| `Settleability.TradeIsPayable` | 13-solana-spot-exchange-lab/programs/spot-settlement/src/instructions/settlement.rs:297-314 | At every point of settling, the next trade overfills no order, overdraws no trader, overflows no balance and no quote amount |
| `Settleability.TradersCanPay` | 13-solana-spot-exchange-lab/crates/application/src/lib.rs:144-160 | Any part of the trades costs a buyer at most its deposited quote and a seller at most its deposited base |
| `Settleability.OrdersNotOverfilled` | 13-solana-spot-exchange-lab/programs/spot-settlement/src/instructions/settlement.rs:554-570 | Any part of the trades fills an order at most up to the quantity it was placed and signed with |
| `Settleability.StandingAfter` | 13-solana-spot-exchange-lab/programs/spot-settlement/src/instructions/settlement.rs:532-570 | A settled trade raises the on-chain counters of its own two orders by its quantity and leaves every other placed order's counter alone |
| `Settleability.ProgressByOne` | 13-solana-spot-exchange-lab/programs/spot-settlement/src/instructions/settlement.rs:297-325 | A settlement moves exactly its two traders' balances, its two order counters and one receipt, and keeps vaults backed |
| `Settleability.NoOverflow` | 13-solana-spot-exchange-lab/programs/spot-settlement/src/instructions/settlement.rs:583-608 | On a backed ledger neither credit of a payable settlement can leave the 64-bit range |
| `SettleabilityExample.TheFillSettles` | 13-solana-spot-exchange-lab/programs/spot-settlement/src/instructions/settlement.rs:226-328 | The premises of the main theorem can be met: a concrete market, two traders and one trade, which settles |
| `SelfTradeExample.SelfTradeHappens` | 13-solana-spot-exchange-lab/crates/domain/src/matching.rs:101-123 | Two deposits, an ask and a bid of one trader: the run accepts all four, and its one fill is of that trader with itself |
| `SelfTradeExample.SelfTradeIsStuck` | 13-solana-spot-exchange-lab/programs/spot-settlement/src/instructions/settlement.rs:421-425 | That fill meets every premise of settling, funds and signatures included, and does not settle |
| `Worker.ServiceSettles` | 13-solana-spot-exchange-lab/services/exchange-service/src/lib.rs:580-656 | End to end, over every run and every interleaving of registrations, batches and drains, batches that cannot be bridged left out: the i-th drained request is accepted if and only if its fill is between two traders and its id had no receipt when the worker started, a refusal stops nothing behind it, and exactly the accepted fills have moved |
| `Worker.EveryServedFillSettles` | 13-solana-spot-exchange-lab/services/exchange-service/src/lib.rs:580-656 | So on a chain without any of the ids, when orders are registered before they are served: once no handler waits and the queue is drained, all served fills between different traders were submitted and accepted, and have moved |
| `Worker.NoServedFillIsLost` | 13-solana-spot-exchange-lab/services/exchange-service/src/lib.rs:1129-1196 | When both orders of every served fill are registered by then and the ids last, every batch gets its ids and none fails to bridge, however the handlers interleave |
| `Worker.RestartRepeatsIds` | 13-solana-spot-exchange-lab/services/exchange-service/src/lib.rs:109-117 | The ids are counted in memory only: a service started again on the same chain hands out every id again, and where the earlier service's request was accepted the later one is refused |
| `AnsweredFills.AnswersSettle` | 13-solana-spot-exchange-lab/services/exchange-service/src/lib.rs:1090-1104 | Mailbox to chain, with any pattern of journal failures, refusals and interleavings: when the service serves fills out of the actor's answers, the requests accepted are exactly those between two traders under an unused id |
| `AnsweredFills.EveryAnsweredFillSettles` | 13-solana-spot-exchange-lab/services/exchange-service/src/lib.rs:1090-1104 | And when orders are signed before their answers are served, on a chain without any of the ids, all served answers between different traders have settled once the queue is drained |
| `AnsweredExample.TheAnswersSettle` | 13-solana-spot-exchange-lab/services/exchange-service/src/lib.rs:1090-1104 | The premises can be met: four mails, whose answers are served, queued, drained and settled |
| `Pipeline.QueueIsRequests` | 13-solana-spot-exchange-lab/services/exchange-service/src/lib.rs:1156-1184 | Over every run and every interleaving the queue was given exactly one request per bridged fill, in the order of bridging, built from the two registered orders and carrying the fill's id |
| `Pipeline.IdsUsedOnce` | 13-solana-spot-exchange-lab/services/exchange-service/src/lib.rs:133-149 | Over every run no id is used twice among queued requests and waiting batches, and none that was not handed out |
| `Pipeline.QueuedIdsDistinct` | 13-solana-spot-exchange-lab/services/exchange-service/src/lib.rs:133-149 | Over every run no two queued requests carry the same id |
| `Pipeline.QueuedWereServed` | 13-solana-spot-exchange-lab/services/exchange-service/src/lib.rs:1129-1141 | Over every run no fill is queued more often than it was served |
| `Pipeline.AllServedAreQueued` | 13-solana-spot-exchange-lab/services/exchange-service/src/lib.rs:1129-1196 | When every batch got its ids and none was dropped, the queued fills are exactly the served ones, and every id handed out is in the queue |
| `Pipeline.QueueSettlementRequests` | 13-solana-spot-exchange-lab/services/exchange-service/src/lib.rs:1129-1196 | The handler on the edge state: the ids, the requests and the queue of the model's two steps taken one after the other, with nothing queued when ids run out or a request cannot be built |
| `Worker.SubmitRequests` | 13-solana-spot-exchange-lab/services/exchange-service/src/lib.rs:607-656 | The loop submits every drained request in order and goes on after a failure, as the model does |
| `ServiceExample.TheServiceSettles` | 13-solana-spot-exchange-lab/services/exchange-service/src/lib.rs:1129-1196 | The premises can be met: two registrations, the two steps of the batch that needs them and one drain, after which the one fill of the run has settled |
| `ServiceExample.RestartLosesOne` | 13-solana-spot-exchange-lab/services/exchange-service/src/lib.rs:109-117 | After that run, whatever a restarted service serves and bridges without loss, one of its requests is refused |
| `ExchangeRuns.RunIsSound` | 13-solana-spot-exchange-lab/crates/application/src/lib.rs:66-142 | After any sequence of deposits and orders, accepted or refused: book sorted and uncrossed, log replays to the state, command ids distinct, every resting order and trade traceable to placed orders, every balance equal to its ledger, quantities conserved, buyers covered |
| `ExchangeRuns.ReplayRebuilds` | 13-solana-spot-exchange-lab/crates/application/src/lib.rs:40-48 | Replaying the log of any run gives back exactly the state the run reached |
| `ExchangeRuns.TraderSolvent` | 13-solana-spot-exchange-lab/crates/application/src/lib.rs:144-160 | For every trader after any run: quote owed on past buys plus what resting bids could still cost is within reserved quote; base sold plus base resting is within reserved base, with equality exactly when all its asks were placed unfilled |
| `ExchangeRuns.BoughtIsSold` | 13-solana-spot-exchange-lab/crates/domain/src/matching.rs:90-147 | Bid quantity placed is bid quantity resting plus traded, ask quantity placed is ask quantity resting plus the same traded total |
| `ExchangeRuns.ApplyKeepsSound` | 13-solana-spot-exchange-lab/crates/application/src/lib.rs:118-142 | Each successfully applied event keeps all of the above |
| `ExchangeRuns.ReservedByOrders` | 13-solana-spot-exchange-lab/crates/domain/src/reservation.rs:105-118 | What a trader has reserved is the limit cost of its bids in quote and the original quantity of its asks in base |
| `ExchangeLaws.DerivedOrderApplies` | 13-solana-spot-exchange-lab/crates/application/src/lib.rs:93-142 | An order event derived on a copy applies to the same state with the same fills and the simulated balances and book |
| `ExchangeLaws.DerivedDepositApplies` | 13-solana-spot-exchange-lab/crates/application/src/lib.rs:77-91 | A derived deposit event fails to apply exactly when the credit would leave the 64-bit range, and then changes nothing |
| `ExchangeLaws.RefusalsLeaveNoTrace` | 13-solana-spot-exchange-lab/crates/application/src/lib.rs:66-98 | A refused deposit or order leaves the application exactly as it was |
| `ExchangeLaws.FailedApplyLeavesTrace` | 13-solana-spot-exchange-lab/crates/application/src/lib.rs:118-142 | Applying a foreign event is not atomic: it fails and still changes the state if and only if it is an order under a new command id that can be placed here, with other fills than the event claims |
| `ExchangeLaws.MismatchExample` | 13-solana-spot-exchange-lab/crates/application/src/lib.rs:118-142 | Such an event on a reachable application: the funds are reserved and the order rests although the event failed and was not logged |
| `ExchangeLaws.OrderAcceptedExactly` | 13-solana-spot-exchange-lab/crates/application/src/lib.rs:93-160 | An order is accepted exactly when its command is new, it is live, its limit cost (bid) or original quantity (ask) is available and the reserved side has room; then exactly that amount moves from available to reserved, one event is logged, and no other balance changes |
| `ExchangeLaws.CommandIsEvent` | 13-solana-spot-exchange-lab/crates/application/src/lib.rs:66-98 | A command changes nothing, or is one event applied and recorded |
| `ExchangeLaws.ReplayOneMore` | 13-solana-spot-exchange-lab/crates/application/src/lib.rs:40-48 | Replaying a longer log is replaying the shorter one and applying the extra event |
| `ExchangeLaws.ApplyKeepsCommands` | 13-solana-spot-exchange-lab/crates/application/src/lib.rs:162-177 | The seen set stays the set of logged command ids, each logged once |
| `ExchangeLaws.ApplyKeepsLedger` | 13-solana-spot-exchange-lab/crates/domain/src/reservation.rs:138-165 | For every trader and asset, available plus reserved stays the sum of credited deposits and reserved the sum of the reservations of placed orders |
| `TradeLaws.MatchQuantities` | 13-solana-spot-exchange-lab/crates/domain/src/matching.rs:101-147 | In one match, for everyone, one trader or one order: what was filled is what stopped resting, on both sides |
| `TradeLaws.MatchCosts` | 13-solana-spot-exchange-lab/crates/domain/src/matching.rs:101-147 | Makers are paid at their own price, and a buying taker's fills and remainder cost at most its limit |
| `TradeLaws.ApplyKeepsConserves` | 13-solana-spot-exchange-lab/crates/domain/src/matching.rs:90-147 | Quantity placed stays quantity resting plus quantity filled, per side and per trader or order |
| `TradeLaws.ApplyKeepsCovered` | 13-solana-spot-exchange-lab/crates/domain/src/reservation.rs:105-118 | What buyers owe and could still owe stays within what their bids reserved at placement |
| `TradeLaws.ApplyKeepsTraceable` | 13-solana-spot-exchange-lab/crates/domain/src/matching.rs:101-147 | Every resting order and both parties of every trade go back to placed orders, at the maker's price and inside both limits |
| `MatchingLaws.GreedyIsPriceTime` | 13-solana-spot-exchange-lab/crates/domain/src/matching.rs:101-147 | The match obeys price-time priority, stated without a loop: the makers hit are a prefix of the queue, all but the last used up, a partly filled one keeps the front, and the match stops only when nothing crosses or nothing is left |
| `MatchingLaws.PriceTimeIsGreedy` | 13-solana-spot-exchange-lab/crates/domain/src/matching.rs:101-147 | Price-time priority leaves no choice: whatever satisfies it is the outcome of the match |
| `MatchingLaws.LeftInOrder` | 13-solana-spot-exchange-lab/crates/domain/src/matching.rs:101-147 | What a match leaves of a queue is sorted, live, and made of orders that were there, terms unchanged |
| `MatchingLaws.PlaceKeepsGood` | 13-solana-spot-exchange-lab/crates/domain/src/matching.rs:90-99 | On an ordered, uncrossed book a placement is refused exactly when the order is terminal, and keeps the book ordered and uncrossed |
| `MatchingLaws.CancelKeepsOrder` | 13-solana-spot-exchange-lab/crates/domain/src/order_book.rs:72-93 | A cancel leaves the queue as it was or without exactly one position, so the rest keep their order among each other, across prices and within one, and stay live |
| `MatchingLaws.CancelTakesOne` | 13-solana-spot-exchange-lab/crates/domain/src/order_book.rs:72-93 | A cancel of a known id returns an order with that id, and only that one is missing afterwards |
| `MatchingLaws.BookAlwaysGood` | 13-solana-spot-exchange-lab/crates/domain/src/order_book.rs:30-93 | After any run of placements and cancels the book is sorted by price and within a price by the operation that brought each order in, holds only live orders on their own side, and best bid is below best ask |
| `MatchingLaws.StepKeepsArrival` | 13-solana-spot-exchange-lab/crates/domain/src/matching.rs:90-147 | Each placement and each cancel keeps arrival order within every price, partly filled makers included |
| `Matching.Greedy` | 13-solana-spot-exchange-lab/crates/domain/src/matching.rs:101-147 | The simple match on a flat queue leaves live makers and keeps the taker's terms |
| `Matching.MatchingEngine.PlaceOrder` | 13-solana-spot-exchange-lab/crates/domain/src/matching.rs:90-99 | On price levels, returns the fills of the flat match and leaves exactly its book; an error leaves the book alone |
| `Matching.MatchingEngine.TradeWithBest` | 13-solana-spot-exchange-lab/crates/domain/src/matching.rs:104-115 | One round of the loop is one step of the flat match, and the taker's remaining quantity falls |
| `Matching.MatchingEngine.MatchBid` | 13-solana-spot-exchange-lab/crates/domain/src/matching.rs:101-123 | The loop over asks terminates and computes the flat match; no error exit is reachable |
| `Matching.MatchingEngine.MatchAsk` | 13-solana-spot-exchange-lab/crates/domain/src/matching.rs:125-147 | The mirror image over bids |
| `Matching.MatchingEngine.Clone` | 13-solana-spot-exchange-lab/crates/domain/src/matching.rs:68-80 | A clone has the same book and shares nothing |
| `Matching.MinRemaining` | 13-solana-spot-exchange-lab/crates/domain/src/matching.rs:164-170 | The smaller of two positive remaining quantities, hence always a valid fill for both |
| `OrderBook.FlatIsUnique` | 13-solana-spot-exchange-lab/crates/domain/src/order_book.rs:5-8 | The price levels determine the flat priority sequence |
| `OrderBook.LevelsAreUnique` | 13-solana-spot-exchange-lab/crates/domain/src/order_book.rs:5-8 | The flat sequence determines the price levels, so equal views are equal books |
| `OrderBook.InsertLevels` | 13-solana-spot-exchange-lab/crates/domain/src/order_book.rs:30-54 | A newcomer joins the back of its own level and touches no other |
| `OrderBook.ReinsertLevels` | 13-solana-spot-exchange-lab/crates/domain/src/order_book.rs:34-54 | A maker put back leads its own level and touches no other |
| `OrderBook.RemovalRepresents` | 13-solana-spot-exchange-lab/crates/domain/src/order_book.rs:72-93 | Taking an order out of its queue, and the queue when it empties, takes exactly that order out of the flat view |
| `OrderBook.OrderBookSide.BestPrice` | 13-solana-spot-exchange-lab/crates/domain/src/order_book.rs:95-107 | The last level of bids or first of asks is the price of the first order in priority |
| `OrderBook.OrderBookSide.BestOrder` | 13-solana-spot-exchange-lab/crates/domain/src/order_book.rs:56-58 | The first order in price-time priority, if there is one |
| `OrderBook.OrderBookSide.Insert` | 13-solana-spot-exchange-lab/crates/domain/src/order_book.rs:30-54 | Refuses exactly the wrong side and terminal orders; otherwise the order queues behind everything at least as good, and no level is empty |
| `OrderBook.OrderBookSide.ReinsertFront` | 13-solana-spot-exchange-lab/crates/domain/src/order_book.rs:34-54 | Same refusals; otherwise the order goes in front of everything no better |
| `OrderBook.OrderBookSide.PopBestOrder` | 13-solana-spot-exchange-lab/crates/domain/src/order_book.rs:60-70 | Takes the first order in priority and drops a level that empties |
| `OrderBook.OrderBookSide.Find` | 13-solana-spot-exchange-lab/crates/domain/src/order_book.rs:72-93 | Finds the lowest-priced, earliest order with the id, or none exists |
| `OrderBook.OrderBookSide.RemoveAt` | 13-solana-spot-exchange-lab/crates/domain/src/order_book.rs:77-86 | Takes one order out of the side and drops a level that empties |
| `OrderBook.OrderBookSide.Cancel` | 13-solana-spot-exchange-lab/crates/domain/src/order_book.rs:72-93 | Cancels that order and leaves the rest in place, or reports a missing id and changes nothing |
| `Orders.NewOrder` | 13-solana-spot-exchange-lab/crates/domain/src/order.rs:44-64 | A new order is live with all of its quantity remaining |
| `Orders.ApplyFill` | 13-solana-spot-exchange-lab/crates/domain/src/order.rs:106-127 | Succeeds exactly for a live order with enough left; keeps the terms, lowers the remainder by the fill, ends exactly at zero |
| `Orders.CancelOrder` | 13-solana-spot-exchange-lab/crates/domain/src/order.rs:129-136 | Succeeds exactly for a live order; keeps terms and remainder and ends it |
| `Balances.BalanceSheet.CreditTo` | 13-solana-spot-exchange-lab/crates/domain/src/reservation.rs:138-146 | Adds to one entry; a refused credit leaves the sheet as it was |
| `Balances.BalanceSheet.Reserve` | 13-solana-spot-exchange-lab/crates/domain/src/reservation.rs:148-151 | Moves an amount from available to reserved in one entry; a refused reservation can leave a lowered or an empty entry behind, and which one is stated |
| `Balances.BalanceSheet.Release` | 13-solana-spot-exchange-lab/crates/domain/src/reservation.rs:153-156 | The inverse move, in one entry, with its trace on failure |
| `Balances.BalanceSheet.DebitReserved` | 13-solana-spot-exchange-lab/crates/domain/src/reservation.rs:158-161 | Takes a reserved amount out of one entry |
| `Balances.ReservationEnds` | 13-solana-spot-exchange-lab/crates/domain/src/reservation.rs:47-74 | A release undoes a reservation exactly; a debit takes exactly the reserved amount out |
| `Balances.FailureLeavesTrace` | 13-solana-spot-exchange-lab/crates/domain/src/reservation.rs:47-65 | A failed reserve or release changes the balance exactly when the receiving side overflows |
| `Balances.FailureExample` | 13-solana-spot-exchange-lab/crates/domain/src/reservation.rs:42-65 | Such a balance, reached by crediting and reserving: the failed reserve loses what was available, the failed release loses what was reserved |
| `Balances.QuoteCost` | 13-solana-spot-exchange-lab/crates/domain/src/money.rs:29-33 | The widened price times quantity is positive and never leaves 128 bits |
| `Application.ExchangeApplication.PlaceOrderInDomain` | 13-solana-spot-exchange-lab/crates/application/src/lib.rs:144-160 | Clones, reserves, matches and swaps the clones in only when both succeed; an error leaves the application unchanged |
| `Application.ExchangeApplication.PlaceOrderEvent` | 13-solana-spot-exchange-lab/crates/application/src/lib.rs:100-116 | Derives the event on a throw-away clone and leaves the application unchanged |
| `Application.ExchangeApplication.CreditDepositEvent` | 13-solana-spot-exchange-lab/crates/application/src/lib.rs:77-91 | Checks only for a duplicate command id |
| `Application.ExchangeApplication.ApplyEvent` | 13-solana-spot-exchange-lab/crates/application/src/lib.rs:118-142 | Same reply and same new state as the model, including what a mismatch leaves behind |
| `Application.ExchangeApplication.RecordAppliedEvent` | 13-solana-spot-exchange-lab/crates/application/src/lib.rs:162-169 | Appends the event and its command id, or refuses a known id |
| `Application.ExchangeApplication.CreditDeposit` | 13-solana-spot-exchange-lab/crates/application/src/lib.rs:66-75 | Same reply and same new state as the model |
| `Application.ExchangeApplication.PlaceOrder` | 13-solana-spot-exchange-lab/crates/application/src/lib.rs:93-98 | Same reply and same new state as the model |
| `Application.ExchangeApplication.Clone` | 13-solana-spot-exchange-lab/crates/application/src/lib.rs:20-28 | Equal state, nothing shared |
| `Application.ExchangeApplication.ApplyNext` | 13-solana-spot-exchange-lab/crates/application/src/lib.rs:42-45 | One step of a replay applies the next event and leaves the rest of the log to come to the same result, or reports that result's error |
| `Application.Replay` | 13-solana-spot-exchange-lab/crates/application/src/lib.rs:40-48 | The loop over the log stops at the first event that fails, and otherwise returns a new application in the replayed state |
| `ActorModel.JournalProtocol` | 13-solana-spot-exchange-lab/crates/runtime/src/lib.rs:292-307 | For every mailbox and every pattern of failing appends: at the end the journal is the application's log, or the actor has stopped with the journal one deposit ahead whose credit would overflow; an appended order always applies |
| `ActorModel.JamsExactly` | 13-solana-spot-exchange-lab/crates/runtime/src/lib.rs:479-509 | One command jams the actor if and only if it is a deposit under a new command id, the journal is up, and its credit leaves the 64-bit range |
| `ActorModel.StuckExactly` | 13-solana-spot-exchange-lab/crates/runtime/src/lib.rs:292-307 | Over every mailbox: the actor ends up stuck if and only if such a deposit reaches it before a shutdown |
| `ActorModel.JournalRecovers` | 13-solana-spot-exchange-lab/crates/runtime/src/lib.rs:479-509 | After a restart the journal rebuilds the application if and only if no such deposit reached the actor, and then exactly |
| `ActorModel.RestartFails` | 13-solana-spot-exchange-lab/crates/runtime/src/lib.rs:479-509 | A new actor that gets stuck: two deposits to one account, the second overflowing, leave a journal that never replays |
| `ActorModel.InStepMeansRecoverable` | 13-solana-spot-exchange-lab/crates/application/src/lib.rs:40-48 | A journal in step with its application replays to exactly that application; a journal one overflowing deposit ahead replays to nothing |
| `ActorModel.HandleKeepsStep` | 13-solana-spot-exchange-lab/crates/runtime/src/lib.rs:309-477 | One command keeps journal and log in step, or stops the actor on that deposit |
| `ActorModel.MetricsCountReplies` | 13-solana-spot-exchange-lab/crates/runtime/src/lib.rs:90-118 | Every counter is the number of replies of its kind modulo 2^64, and the log grows by the accepted events |
| `ActorReplies.AnswerIsLogged` | 13-solana-spot-exchange-lab/crates/runtime/src/lib.rs:343-452 | Each kind of answer belongs to one kind of command, and the log grows by exactly the event the answer stands for: an order's with the very fills in the answer, a deposit's with its trader, asset and amount, nothing for a refusal |
| `ActorReplies.AnswersAreTheLog` | 13-solana-spot-exchange-lab/crates/runtime/src/lib.rs:292-307 | Over every mailbox the answers, read in order, are exactly the events the run has logged |
| `ActorReplies.AnsweredTradesAreTheTrades` | 13-solana-spot-exchange-lab/crates/runtime/src/lib.rs:395-409 | So the fills in the order replies are the trades of the log, none missing, none twice, in order |
| `ActorReplies.AnsweredExactly` | 13-solana-spot-exchange-lab/crates/runtime/src/lib.rs:309-477 | The actor says yes exactly to a deposit that is new and fits, to an order that is new, live and covered, both with the journal up, and to every snapshot and shutdown |
| `ActorReplies.RefusalsAreTrue` | 13-solana-spot-exchange-lab/crates/runtime/src/lib.rs:309-477 | What a refusal complains about is really wrong with the command |
| `ActorReplies.ActorIsRun` | 13-solana-spot-exchange-lab/crates/runtime/src/lib.rs:292-307 | A new actor ends up in the state of an exchange that performs the commands it said yes to |
| `ActorReplies.AnswersUpToTheEnd` | 13-solana-spot-exchange-lab/crates/runtime/src/lib.rs:292-307 | Over every mailbox each mail up to the first shutdown or jamming deposit is answered once, and none behind it |
| `ActorReplies.CountsFromZero` | 13-solana-spot-exchange-lab/crates/runtime/src/lib.rs:90-118 | The counters of an actor with new counters are the numbers of its replies of each kind modulo 2^64 |
| `Runtime.EventJournal.Append` | 13-solana-spot-exchange-lab/crates/runtime/src/lib.rs:13-26 | Appends the event, or fails and writes nothing |
| `Runtime.MarketActor.PersistAndApply` | 13-solana-spot-exchange-lab/crates/runtime/src/lib.rs:479-509 | Append first, apply second; an append failure changes only the counters, an apply failure stops the actor |
| `Runtime.MarketActor.HandleEvent` | 13-solana-spot-exchange-lab/crates/runtime/src/lib.rs:309-477 | Derives the event without changing state, then persists and applies it |
| `Runtime.MarketActor.Handle` | 13-solana-spot-exchange-lab/crates/runtime/src/lib.rs:309-477 | Same reply, stop signal and state as the model for every command |
| `Runtime.MarketActor.Run` | 13-solana-spot-exchange-lab/crates/runtime/src/lib.rs:292-307 | The receive loop gives the model's replies and final state and stops where the model stops |
| `Preimages.PreimageInjective` | 13-solana-spot-exchange-lab/programs/spot-settlement/src/state.rs:27-44 | Two on-chain signed orders with the same bytes agree in every field |
| `Preimages.IntentPreimageInjective` | 13-solana-spot-exchange-lab/crates/domain/src/signed_order.rs:94-106 | Two off-chain signed orders with the same bytes agree in every field |
| `Preimages.LayoutsNeverCoincide` | 13-solana-spot-exchange-lab/crates/domain/src/signed_order.rs:94-106 | The 94-byte and the 138-byte layout never give the same bytes, although both start with the same tag |
| `Preimages.LittleEndianRoundTrip` | 13-solana-spot-exchange-lab/programs/spot-settlement/src/state.rs:34-42 | Decoding undoes the little-endian encoding |
| `Preimages.PreimageLayout` | 13-solana-spot-exchange-lab/programs/spot-settlement/src/state.rs:27-44 | The 138 bytes field by field: tag text, order id, trader, market, side byte (bid 0, ask 1), price, quantity, nonce and expiry at their offsets, each number lowest byte first and read back by decoding |
| `Preimages.IntentLayout` | 13-solana-spot-exchange-lab/crates/domain/src/signed_order.rs:94-106 | The same for the 94 bytes of the exchange's own intent |
| `Preimages.SigningPreimage` | 13-solana-spot-exchange-lab/programs/spot-settlement/src/state.rs:28-43 | The byte-by-byte construction gives the 138-byte layout |
| `Preimages.IntentSigningPreimage` | 13-solana-spot-exchange-lab/crates/domain/src/signed_order.rs:94-106 | The byte-by-byte construction gives the 94-byte layout |
| `SignedFills.RulesAgree` | 13-solana-spot-exchange-lab/crates/domain/src/signed_order.rs:196-238 | For a bid and an ask of one market, the exchange's check accepts exactly the fills whose rules the settlement program accepts, and the quote amounts agree whenever 64 bits hold them |
| `SignedFills.EngineFillsValidate` | 13-solana-spot-exchange-lab/crates/domain/src/signed_order.rs:196-238 | Every trade the engine makes between two traders passes that check with the parties' signed orders, and yields exactly its traders, price, quantity and cost |
| `SignedFills.AcceptsExactly` | 13-solana-spot-exchange-lab/crates/domain/src/signed_order.rs:196-238 | The exchange's check accepts exactly the fills that a live bid and a live ask of one market and two traders allow, and its refusals are true |
| `Ed25519Check.PassesWhatWasVerified` | 13-solana-spot-exchange-lab/programs/spot-settlement/src/instructions/settlement.rs:463-530 | The check of an earlier instruction passes exactly when the signature program verified this very key, signature and message there |
| `Ed25519Check.VouchesForOneOrder` | 13-solana-spot-exchange-lab/programs/spot-settlement/src/instructions/settlement.rs:447-514 | One earlier instruction vouches for at most one order and signature |
| `Ed25519Check.CheckInstructionPasses` | 13-solana-spot-exchange-lab/crates/settlement_client/src/lib.rs:350-370 | The check a client puts in front of a settlement passes, and is what the signature program verifies |
| `SignedReceipts.SignaturesVerified` | 13-solana-spot-exchange-lab/programs/spot-settlement/src/instructions/settlement.rs:269-282 | When the two instructions before a settlement succeeded and pass its checks, buyer and seller really signed their orders |
| `SettlementLaws.ChainIsSound` | 13-solana-spot-exchange-lab/programs/spot-settlement/src/instructions/settlement.rs:226-328 | After any run of deposits, withdrawals, settlements and cancels: vaults equal the sum of balances, every trader holds deposits less withdrawals plus and minus its receipts, every settlement id is applied at most once, and under a collision-free hash every order counter equals the receipts that name it and is within the signed quantity |
| `SettlementLaws.CancelledForever` | 13-solana-spot-exchange-lab/programs/spot-settlement/src/instructions/settlement.rs:364-387 | Over every run: an order cancelled after some instructions has the same fill state after any instructions that follow |
| `SettlementLaws.OnlyOwnersCancel` | 13-solana-spot-exchange-lab/programs/spot-settlement/src/instructions/settlement.rs:364-387 | Over every run a fill state is cancelled if and only if a cancel instruction for it succeeded, and each of those was signed by the trader named in an order of this market with that hash |
| `SettlementLaws.CancelledByItsTrader` | 13-solana-spot-exchange-lab/programs/spot-settlement/src/instructions/settlement.rs:406-419 | Under a collision-free hash: over every run an order is cancelled if and only if it is of this market and its own trader cancelled it |
| `SettlementLaws.ExecuteKeepsCancels` | 13-solana-spot-exchange-lab/programs/spot-settlement/src/instructions/settlement.rs:364-387 | One successful instruction cancels a fill state exactly when it is a cancel by the trader of an order with that hash |
| `SettlementLaws.CancelledIsFrozen` | 13-solana-spot-exchange-lab/programs/spot-settlement/src/instructions/settlement.rs:554-570 | One successful instruction leaves the fill state of a cancelled order as it is |
| `SettlementLaws.LoadKeepsState` | 13-solana-spot-exchange-lab/programs/spot-settlement/src/instructions/settlement.rs:532-552 | The init-if-needed path never resets an existing fill state |
| `SettlementLaws.WithdrawalsArePaid` | 13-solana-spot-exchange-lab/programs/spot-settlement/src/instructions/withdraw.rs:59-148 | On a backed ledger a withdrawal succeeds exactly when the market is open, mint, vault, authority and the trader's own account are the right ones, and the balance covers the amount; the vault is never short |
| `SettlementLaws.DepositsAreTaken` | 13-solana-spot-exchange-lab/programs/spot-settlement/src/instructions/deposit.rs:53-131 | On a backed ledger a deposit succeeds exactly when the market is open, mint, vault and the trader's own account are the right ones, the trader has the tokens and the vault has room; the trader's balance never overflows |
| `SettlementLaws.SettlementTransfers` | 13-solana-spot-exchange-lab/programs/spot-settlement/src/instructions/settlement.rs:583-608 | A settlement moves base one way and quote the other between two existing balances and adds one new receipt |
| `SettlementLaws.FillsAfter` | 13-solana-spot-exchange-lab/programs/spot-settlement/src/instructions/settlement.rs:532-570 | The fill states after any successful instruction, within both signed quantities and untouched by everything but signed settlements and cancels |
| `SettlementLaws.OrdersHaveOwnStates` | 13-solana-spot-exchange-lab/programs/spot-settlement/src/instructions/settlement.rs:258-267 | Under a collision-free hash the two orders of one settlement use different fill-state accounts |
| `SettlementLaws.ExecuteKeepsBacked` | 13-solana-spot-exchange-lab/programs/spot-settlement/src/instructions/deposit.rs:94-128 | Every instruction keeps each vault equal to the sum of the balances it backs |
| `SettlementLaws.ExecuteKeepsHistory` | 13-solana-spot-exchange-lab/programs/spot-settlement/src/instructions/settlement.rs:85-127 | Every instruction keeps each trader's balance equal to its deposits, withdrawals and receipts |
| `SettlementLaws.ExecuteKeepsCounts` | 13-solana-spot-exchange-lab/programs/spot-settlement/src/instructions/settlement.rs:554-570 | Every instruction keeps an order's counter equal to the sum of the receipts naming it |
| `SettlementLaws.ExecuteKeepsWithin` | 13-solana-spot-exchange-lab/programs/spot-settlement/src/instructions/settlement.rs:564-567 | Every instruction keeps an order's counter within its signed quantity |
| `SettlementLaws.ExecuteKeepsIds` | 13-solana-spot-exchange-lab/programs/spot-settlement/src/instructions/settlement.rs:203-214 | Every instruction keeps each settlement id used at most once |
| `SignedReceipts.EveryReceiptIsSigned` | 13-solana-spot-exchange-lab/programs/spot-settlement/src/instructions/settlement.rs:226-328 | Over every run, behind every receipt that names orders stand a bid of the buyer and an ask of the seller, both hashed for this market and with signatures the signature program verified, whose limits allow its quantity and its quote amount |
| `SignedReceipts.ChecksDone` | 13-solana-spot-exchange-lab/programs/spot-settlement/src/instructions/settlement.rs:233-282 | What has been checked when a signed settlement succeeds: authority, pause, payloads, sides, prices, expiry, hashes and both signatures |
| `SettlementExact.OnlyAuthoritySettles` | 13-solana-spot-exchange-lab/programs/spot-settlement/src/instructions/settlement.rs:24-31 | Over every run each settlement that went through, signed or not, was asked for by the market's authority |
| `SettlementExact.UnsignedExactly` | 13-solana-spot-exchange-lab/programs/spot-settlement/src/instructions/settlement.rs:85-127 | An unsigned settlement goes through exactly for the authority, between two different existing accounts, under an unused id, in an open market, with both amounts positive, funds on both sides and room on both; its receipt has zero hashes |
| `SettlementExact.SignedExactly` | 13-solana-spot-exchange-lab/programs/spot-settlement/src/instructions/settlement.rs:226-328 | A signed settlement goes through exactly when, besides, no earlier instruction failed, the two before it check both signatures, a live bid and a live ask of the two traders allow the fill, and neither order is cancelled or used up |
| `SettlementExact.CancelExactly` | 13-solana-spot-exchange-lab/programs/spot-settlement/src/instructions/settlement.rs:364-387 | A cancel goes through exactly when the market is open and the trader names an order of its own by its digest |
| `SettlementExact.CustodyExactly` | 13-solana-spot-exchange-lab/programs/spot-settlement/src/instructions/deposit.rs:53-131 | On every reachable chain a deposit or withdrawal goes through exactly when amount, accounts and funds allow it |
| `SettlementExact.MarketStaysOpen` | 13-solana-spot-exchange-lab/programs/spot-settlement/src/instructions/initialize.rs:85-109 | No instruction closes the market |
| `SettlementExact.ErrorsAreTrue` | 13-solana-spot-exchange-lab/programs/spot-settlement/src/error.rs:1-57 | What an error complains about is really wrong with the instruction |
| `SpotSettlement.MarketAccounts.Deposit` | 13-solana-spot-exchange-lab/programs/spot-settlement/src/instructions/deposit.rs:53-131 | Checks pause, amount, mint, source and vault in order, moves tokens into the vault and credits the trader, or reports the model's error and changes nothing |
| `SpotSettlement.MarketAccounts.Withdraw` | 13-solana-spot-exchange-lab/programs/spot-settlement/src/instructions/withdraw.rs:59-148 | Checks pause, amount, mint, destination, vault and authority in order, debits the trader and moves tokens out of the vault, or reports the model's error and changes nothing |
| `SpotSettlement.MarketAccounts.SettleFill` | 13-solana-spot-exchange-lab/programs/spot-settlement/src/instructions/settlement.rs:85-127 | Settles for the authority between two traders with a zero-hash receipt, refuses one account passed twice, or reports the model's error and changes nothing |
| `SpotSettlement.MarketAccounts.SettleSignedFill` | 13-solana-spot-exchange-lab/programs/spot-settlement/src/instructions/settlement.rs:226-328 | Checks, fill states, balances and receipt as in the model; any error changes nothing |
| `SpotSettlement.MarketAccounts.ApplyBalanceSettlement` | 13-solana-spot-exchange-lab/programs/spot-settlement/src/instructions/settlement.rs:583-608 | Four checked updates in order, with the error of the first that fails |
| `SpotSettlement.MarketAccounts.InitializeFillStateIfNeeded` | 13-solana-spot-exchange-lab/programs/spot-settlement/src/instructions/settlement.rs:532-552 | Zeroes a new fill state, keeps an old one, refuses a foreign one |
| `SpotSettlement.MarketAccounts.ApplyFillState` | 13-solana-spot-exchange-lab/programs/spot-settlement/src/instructions/settlement.rs:554-570 | Adds the fill unless the order is cancelled, overflows or exceeds the signed quantity |
| `SpotSettlement.MarketAccounts.CancelSignedOrder` | 13-solana-spot-exchange-lab/programs/spot-settlement/src/instructions/settlement.rs:364-387 | Sets the cancel flag of the order's own state, or reports the model's error and changes nothing |
| `Bridge.RequestsFromBatch` | 13-solana-spot-exchange-lab/crates/relayer/src/application_bridge.rs:45-98 | The loop returns all requests in order, or the error of the first intent that fails |
| `Bridge.RequestMeetsRules` | 13-solana-spot-exchange-lab/crates/relayer/src/application_bridge.rs:116-164 | A request that was built carries its intent's price and quantity between a bid and an ask of the market and passes the program's fill rules exactly when its traders differ and neither order has expired |
| `Bridge.RequestExactly` | 13-solana-spot-exchange-lab/crates/relayer/src/application_bridge.rs:45-164 | A request is built exactly for an intent of this market under an id in range whose two orders are stored under their own ids for this market, one a bid of the buyer and one an ask of the seller that allow price and quantity; it carries both as stored |
| `Bridge.ErrorsAreTrue` | 13-solana-spot-exchange-lab/crates/relayer/src/application_bridge.rs:45-164 | What an error complains about is really wrong with the intent or the stored orders |
| `Bridge.BatchIsComplete` | 13-solana-spot-exchange-lab/crates/relayer/src/application_bridge.rs:45-98 | All requests are built exactly when each can be, one per intent in order, with contiguous ids |
| `Bridge.AllocateExactly` | 13-solana-spot-exchange-lab/services/exchange-service/src/lib.rs:133-149 | Nothing is handed out when nothing is asked for; otherwise the next id, or an error exactly when the ids do not last |
| `Bridge.EdgeNeverRepeats` | 13-solana-spot-exchange-lab/services/exchange-service/src/lib.rs:133-149 | Over every run of the edge state the id ranges handed out cover an interval from zero without overlap or gap |
| `Bridge.EdgeKeepsQueue` | 13-solana-spot-exchange-lab/services/exchange-service/src/lib.rs:151-175 | Over every run, what was drained followed by what is queued is what was put in, in order |
| `Bridge.SettlementEdgeState.StoreSignedOrder` | 13-solana-spot-exchange-lab/services/exchange-service/src/lib.rs:120-131 | Stores the order under its id and tells whether it replaced one |
| `Bridge.SettlementEdgeState.AllocateSettlementIds` | 13-solana-spot-exchange-lab/services/exchange-service/src/lib.rs:133-149 | Hands out the next ids and advances the counter by exactly the count, or fails on overflow and keeps it |
| `Bridge.SettlementEdgeState.QueueSettlementRequests` | 13-solana-spot-exchange-lab/services/exchange-service/src/lib.rs:151-157 | Appends the requests |
| `Bridge.SettlementEdgeState.DrainQueuedSettlementRequests` | 13-solana-spot-exchange-lab/services/exchange-service/src/lib.rs:167-175 | Returns the whole queue and empties it |
| `Issuance.SupplyStaysBalanced` | 06-issuance-core/programs/modular_issuer/src/instructions/rotate_issuer_authority.rs:66-107 | In every run that never switches a retired authority back on, with any chain of rotations: supply is minted less burned, within the cap, and the sum of what active issuers have outstanding, each within its limit; minted and burned are the sums of the active issuers' own totals |
| `Issuance.BalancedUntilRetiredBurn` | 06-issuance-core/programs/modular_issuer/src/instructions/burn_from_user.rs:80-140 | Exact condition over whole runs: every state is balanced if and only if no successful step burns through a retired authority |
| `Issuance.StepKeepsBalanced` | 06-issuance-core/programs/modular_issuer/src/instructions/burn_from_user.rs:80-140 | One successful step keeps the ledger balanced if and only if it is not such a burn |
| `Issuance.StepKeepsRetired` | 06-issuance-core/programs/modular_issuer/src/instructions/set_issuer_paused.rs:32-43 | Retired authorities stay switched off exactly until one is switched on, and until then none can burn |
| `Issuance.RetiredBurnBreaksSupply` | 06-issuance-core/programs/modular_issuer/src/instructions/burn_from_user.rs:80-140 | The input that shows the premise is needed: after a rotation and an unpause the old authority burns its successor's tokens, and the successor can no longer burn its own |
| `Issuance.RotationMovesPosition` | 06-issuance-core/programs/modular_issuer/src/instructions/rotate_issuer_authority.rs:73-98 | Rotation hands limit, switch and statistics to the successor and leaves every total as it was |
| `Issuance.BurnNeverStuck` | 06-issuance-core/programs/modular_issuer/src/instructions/burn_from_user.rs:87-130 | On a balanced ledger an active, unpaused issuer can burn exactly what it has outstanding; no global total stands in the way |
| `Issuance.MintExactly` | 06-issuance-core/programs/modular_issuer/src/instructions/mint_to_user.rs:94-184 | On a balanced ledger an active, unpaused issuer can mint exactly up to its limit, the cap and the 64-bit range of everything ever minted; its own total never stands in the way |
| `IssuanceHistory.HistoryIsTold` | 06-issuance-core/programs/modular_issuer/src/instructions/rotate_issuer_authority.rs:66-107 | Over every run, rotations and retired authorities included: minted, burned and supply are what the successful mints and burns add up to, each key's limit, switch and statistics are its own history begun where its predecessor left off, and only the admin registered, switched or rotated |
| `IssuanceHistory.StepExactly` | 06-issuance-core/programs/modular_issuer/src/instructions/mint_to_user.rs:94-184 | On a balanced ledger every instruction goes through exactly when its caller, the switches, limit, cap, range and what is outstanding allow it; no statistics counter stands in the way |
| `IssuanceHistory.ErrorsAreTrue` | 06-issuance-core/programs/modular_issuer/src/instructions/burn_from_user.rs:80-140 | What an error complains about is really wrong with the instruction |
| `Issuance.ModularIssuer.Initialize` | 06-issuance-core/programs/modular_issuer/src/instructions/initialize.rs:21-40 | Starts with the given cap, which must be positive |
| `Issuance.ModularIssuer.RegisterIssuer` | 06-issuance-core/programs/modular_issuer/src/instructions/register_issuer.rs:44-76 | A new issuer with a positive limit and zero statistics, or the model's error and no change |
| `Issuance.ModularIssuer.SetIssuerPaused` | 06-issuance-core/programs/modular_issuer/src/instructions/set_issuer_paused.rs:32-43 | Sets one switch, or the model's error and no change |
| `Issuance.ModularIssuer.RotateIssuerAuthority` | 06-issuance-core/programs/modular_issuer/src/instructions/rotate_issuer_authority.rs:66-107 | Copies the position and retires the old authority, or the model's error and no change |
| `Issuance.ModularIssuer.MintToUser` | 06-issuance-core/programs/modular_issuer/src/instructions/mint_to_user.rs:94-194 | Limit, cap and totals checked in order, then four counters raised; any error changes nothing |
| `Issuance.ModularIssuer.BurnFromUser` | 06-issuance-core/programs/modular_issuer/src/instructions/burn_from_user.rs:80-140 | Outstanding, supply and totals checked in order, then four counters moved; any error changes nothing |
| `RedemptionLaws.DeskIsSound` | 08-redemption-and-admin/programs/redemption_admin/src/instructions/admin.rs:226-293 | In every reachable state: each vault total is the sum of the requests in that status, requested is their sum, completed and rejected are the sums of the log, request and log numbers are gapless, a settlement is logged exactly once, and the log alone tells admin, pending admin and pause switch, each entry written by whoever had the right to |
| `RedemptionLaws.AcceptedExactly` | 08-redemption-and-admin/programs/redemption_admin/src/instructions/admin.rs:136-293 | On every reachable desk an instruction succeeds exactly when its caller may ask for it: requests while open and within 64 bits, cancels by the owner, settlements and switches by the admin, the handover by the named key; pending requests never fail on vault arithmetic, and only a used-up log number stops an admin |
| `RedemptionLaws.SettledForever` | 08-redemption-and-admin/programs/redemption_admin/src/instructions/redemption.rs:102-128 | Over every run: a request that is no longer pending after some instructions is the same after any instructions that follow |
| `RedemptionLaws.SettledIsFinal` | 08-redemption-and-admin/programs/redemption_admin/src/instructions/admin.rs:136-160 | One successful instruction leaves a request that is no longer pending as it is |
| `RedemptionLaws.StepKeepsTotals` | 08-redemption-and-admin/programs/redemption_admin/src/instructions/redemption.rs:64-128 | Every instruction keeps each vault total equal to the requests in its status |
| `RedemptionLaws.StepKeepsSettledOnce` | 08-redemption-and-admin/programs/redemption_admin/src/instructions/admin.rs:226-267 | Every instruction keeps exactly one log entry per settled request and none per other |
| `RedemptionLaws.StepKeepsControl` | 08-redemption-and-admin/programs/redemption_admin/src/instructions/admin.rs:162-224 | Every instruction keeps the log an exact account of who is admin, who may become it and whether requests are open |
| `RedemptionHistory.RequestsAreTold` | 08-redemption-and-admin/programs/redemption_admin/src/instructions/redemption.rs:64-100 | Over every run the n-th successful request is the request numbered n, with the owner and the amount asked for; it is cancelled, completed or rejected exactly if a successful instruction did so; the requested total is the sum of the amounts asked for |
| `RedemptionHistory.CancelledByWhoAsked` | 08-redemption-and-admin/programs/redemption_admin/src/instructions/redemption.rs:102-128 | Over every run a request can be cancelled exactly by the key that asked for it, until it has ended |
| `RedemptionHistory.AdminIsTold` | 08-redemption-and-admin/programs/redemption_admin/src/instructions/admin.rs:136-293 | Over every run admin, successor, switch and the whole log, entry by entry, are what the successful instructions say |
| `RedemptionHistory.ErrorsAreTrue` | 08-redemption-and-admin/programs/redemption_admin/src/instructions/admin.rs:136-293 | On every reachable desk what an error complains about is really wrong with the instruction |
| `Redemption.RedemptionDesk.Request` | 08-redemption-and-admin/programs/redemption_admin/src/instructions/redemption.rs:64-100 | A new pending request under the next number, or the model's error and no change |
| `Redemption.RedemptionDesk.Cancel` | 08-redemption-and-admin/programs/redemption_admin/src/instructions/redemption.rs:102-128 | Releases a pending request of its owner, or the model's error and no change |
| `Redemption.RedemptionDesk.Settle` | 08-redemption-and-admin/programs/redemption_admin/src/instructions/admin.rs:136-267 | Completes or rejects a pending request and logs it, or the model's error and no change |
| `Redemption.RedemptionDesk.SetRedemptionsPaused` | 08-redemption-and-admin/programs/redemption_admin/src/instructions/admin.rs:162-177 | Sets the switch and logs it, or the model's error and no change |
| `Redemption.RedemptionDesk.BeginAdminTransfer` | 08-redemption-and-admin/programs/redemption_admin/src/instructions/admin.rs:179-199 | Names a different, non-default pending admin and logs it, or the model's error and no change |
| `Redemption.RedemptionDesk.AcceptAdminTransfer` | 08-redemption-and-admin/programs/redemption_admin/src/instructions/admin.rs:201-224 | The named admin takes over and the handover is logged, or the model's error and no change |
| `Redemption.RedemptionDesk.WriteAdminLog` | 08-redemption-and-admin/programs/redemption_admin/src/instructions/admin.rs:269-293 | One entry under the next number, or an error when the numbers are used up |
| `Compliance.StepKeepsCounters` | 07-transfer-hook-compliance/programs/compliance_hook/src/instructions/execute.rs:136-150 | One successful step keeps every counter equal to what its account sent on its recorded day if and only if it is not a transfer on another day than the recorded one, on which the account has already sent something |
| `Compliance.CountersTrueUntilReopened` | 07-transfer-hook-compliance/programs/compliance_hook/src/instructions/execute.rs:136-150 | Over whole runs: every counter is right at every moment if and only if no successful transfer reopens such a day |
| `Compliance.StepKeepsCap` | 07-transfer-hook-compliance/programs/compliance_hook/src/instructions/execute.rs:142-149 | With right counters, one successful step exceeds a day's cap if and only if it reopens a day and sends more than is left of it |
| `Compliance.TransferKeepsCap` | 07-transfer-hook-compliance/programs/compliance_hook/src/instructions/execute.rs:142-149 | After any history, reopened days included, an accepted transfer keeps the cap if and only if everything the account has then sent that day is within the limit |
| `Compliance.NeverOverstates` | 07-transfer-hook-compliance/programs/compliance_hook/src/instructions/execute.rs:136-150 | Over every run, whatever the clock does, no counter shows more than its account has sent on the recorded day |
| `Compliance.DailyRefusalIsJustified` | 07-transfer-hook-compliance/programs/compliance_hook/src/instructions/execute.rs:142-149 | Over every run a daily-limit refusal means that what the account really sent that day leaves no room for the amount |
| `Compliance.CapHolds` | 07-transfer-hook-compliance/programs/compliance_hook/src/instructions/execute.rs:142-149 | Every run that reopens no day keeps each day's total within the limit in force at every acceptance |
| `Compliance.DailyCapHolds` | 07-transfer-hook-compliance/programs/compliance_hook/src/instructions/execute.rs:136-150 | A clock that never goes back reopens no day: with any interleaving of transfers, limit changes and profile updates every counter is right at every moment and every day's total within the limit in force |
| `Compliance.ReopenedDayBreaksCap` | 07-transfer-hook-compliance/programs/compliance_hook/src/instructions/execute.rs:136-140 | A run from a newly initialised hook that reopens a day: the clock goes back, and the account sends 120 in one day under a limit of 100 |
| `Compliance.AcceptedExactly` | 07-transfer-hook-compliance/programs/compliance_hook/src/instructions/execute.rs:98-150 | Over every run that reopens no day, a transfer that reopens none goes through exactly when switches and both profiles allow it and everything sent that day plus the amount is within the limit |
| `Compliance.AdminKeepsCounters` | 07-transfer-hook-compliance/programs/compliance_hook/src/instructions/admin.rs:215-254 | Changing profiles, limits or the pause switch never makes a counter wrong |
| `ComplianceHistory.DayIsStretch` | 07-transfer-hook-compliance/programs/compliance_hook/src/instructions/execute.rs:136 | The day of a timestamp is the one stretch of 86400 seconds it lies in, counted from zero in both directions |
| `ComplianceHistory.CapByTheClock` | 07-transfer-hook-compliance/programs/compliance_hook/src/instructions/execute.rs:136-150 | By the clock alone: when it never goes back, what an account sends in one stretch of 86400 seconds stays, with every acceptance, within the limit then in force |
| `ComplianceHistory.SettingsAreTold` | 07-transfer-hook-compliance/programs/compliance_hook/src/instructions/admin.rs:215-254 | Over every run limits, switch and each account's flags are the latest that went through, each set by the admin; transfers change none of them |
| `ComplianceHistory.ProfileKeepsCounter` | 07-transfer-hook-compliance/programs/compliance_hook/src/instructions/admin.rs:215-231 | Setting a profile keeps its counter, and a new profile starts at zero |
| `ComplianceHistory.StepExactly` | 07-transfer-hook-compliance/programs/compliance_hook/src/instructions/execute.rs:98-150 | A step goes through exactly when the caller is the admin and limits are positive, or switches, both profiles and the counter of the clock's day allow the transfer |
| `ComplianceHistory.ErrorsAreTrue` | 07-transfer-hook-compliance/programs/compliance_hook/src/instructions/execute.rs:98-150 | What an error complains about is really wrong with the step |
| `Compliance.ComplianceHook.Initialize` | 07-transfer-hook-compliance/programs/compliance_hook/src/instructions/admin.rs:123-142 | Starts unpaused with the given limits, which must both be positive |
| `Compliance.ComplianceHook.Execute` | 07-transfer-hook-compliance/programs/compliance_hook/src/instructions/execute.rs:98-155 | Checks in order, rolls the day over, counts the amount; any error changes nothing |
| `Compliance.ComplianceHook.SetUserCompliance` | 07-transfer-hook-compliance/programs/compliance_hook/src/instructions/admin.rs:215-231 | Sets the three flags and keeps the counter, or the model's error and no change |
| `Compliance.ComplianceHook.SetTransferLimits` | 07-transfer-hook-compliance/programs/compliance_hook/src/instructions/admin.rs:233-248 | Sets both limits when both are positive, or the model's error and no change |
| `Compliance.ComplianceHook.SetProtocolPaused` | 07-transfer-hook-compliance/programs/compliance_hook/src/instructions/admin.rs:250-254 | Sets the switch for the admin, or the model's error and no change |

## Left out

Statements that are weaker than the source on purpose:

- SettlementModel.SettlementAccounts: one account passed as both mutable balances is an error, as Anchor 1.0.2 refuses it before the handler; when several account constraints fail, which of them Anchor reports first is not part of this model.
- Runtime.EventJournal.Append: whether the journal is reachable is a parameter, and a failed append writes nothing.
- Bridge.RequestsFromBatch: the signed-order source is the edge state's own map, and keys are compared as stored.

What the model does with entities and state:

- Orders.Order: a value, because the source copies it; price levels, sheets, applications, journals and program accounts are objects.
- Token accounts: mint, owner and key of wallet and vault are modelled, and the wallet's tokens are a parameter.
- Program accounts: maps keyed by the seeds that derive their addresses; a failed instruction is rolled back as a whole.
- Market: one market per settlement ledger; base and quote differ; tick and lot checks belong to the service's request handler, before the exchange.
- Hash and signatures: SHA-256 is a function parameter, collision-free where a law says so; which signatures are valid is a given predicate of the signature program, and what the settlement program reads out of that program's instructions is modelled byte by byte.
- Journal entries: orders in events keep their remaining quantity and status; the database record drops both.
- Concurrency: the mailbox serialises commands, so the actor is a sequence of steps; relaxed atomics are plain counters that wrap.
- `sequence` of an order: carried but never consulted, as in the source.

What the repository does that is not modelled:

- HTTP routing, API keys, configuration, tracing and metrics text of the exchange service.
- PostgreSQL and JSON encoding, and the settlement outbox, which replaces the in-memory queue when a database is configured.
- RPC submission, retries, confirmation and dead letters of the relayer: the worker's submitter is a function that executes the transaction once; building of transactions by the settlement client.
- Handlers that run side by side: registering, allocating ids, bridging with queueing, and draining are one step each, in any order; a registration between two look-ups of one batch is not told apart from one before or after it.
- Validation of a signed order when it is registered: what the laws need of it is the premise `Settleability.Mirrored`.
- Token-2022, System and Anchor internals: rent, bumps, account sizes, transfer fees, tokens sent to a vault directly.
- The mint creation of `06-issuance-core`, and its protocol switch, which no instruction sets.
- Timestamps of redemption requests and log entries.
- The account-list checks of the transfer hook and the TLV account that lists them.
- `12-token-2022-stablecoin-protocol`, which repeats the programs of 06, 07, 08 and 11.
- `10-security-invariants-fuzzing`, whose single-issuer and single-request models are special cases of `Issuance` and `Redemption`.
- Labs 02 to 05, 09 and 11: single-branch handlers and offline scripts.
