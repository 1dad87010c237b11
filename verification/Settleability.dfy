/** End to end: every fill the exchange ever made can be settled on-chain, in any order. */
module Settleability {
  import opened Types
  import opened Orders
  import opened Matching
  import opened Preimages
  import opened ExchangeModel
  import opened ExchangeLaws
  import opened TradeLaws
  import opened ExchangeRuns
  import opened SettlementModel
  import opened SettlementTypes
  import opened SettlementLaws
  import opened Bridge
  import opened Ed25519Check
  import opened Sums
  import B = Balances

  // The exchange, the bridge and the program of one market, and the key each trader signs with.
  datatype Deployment = Deployment(bridge: SettlementBridge, program: Program, key: TraderId -> Pubkey)

  ghost predicate WellDeployed(d: Deployment) {
    && d.program.market == d.bridge.marketConfig != DEFAULT_KEY
    && d.program.authority == d.bridge.authority
    && CollisionFree(d.program)
    && forall s, t :: d.key(s) == d.key(t) ==> s == t
  }

  // The trader signed this very order, and the signature still stands at `horizon`.
  ghost predicate MirrorsOrder(d: Deployment, s: StoredOrder, o: Order, horizon: U64) {
    && o.market == d.bridge.marketId
    && o.id < TWO_64
    && s.trader == o.trader
    && s.order.nonce > 0 && s.order.expirySlot > 0 && horizon <= s.order.expirySlot
    && s.order == SignedOrderPayload(o.id, d.bridge.marketConfig, d.key(o.trader), o.side, o.price, o.original,
                                     s.order.nonce, s.order.expirySlot)
    && s.hash == d.program.sha256(Preimage(s.order))
    && d.program.verifies(d.key(o.trader), Preimage(s.order), s.signature)
  }

  predicate IsPlaced(events: seq<Event>, o: Order) {
    exists e :: e in events && e.OrderPlaced? && e.order == o
  }

  // One of these trades is for this order.
  predicate Involved(trades: seq<Trade>, o: Order) {
    exists t :: t in trades && t.OrderOn(o.side) == o.id
  }

  // Every placed order that the trades need was signed as it was placed.
  ghost predicate Mirrored(d: Deployment, store: Store, events: seq<Event>, trades: seq<Trade>, horizon: U64) {
    forall o | IsPlaced(events, o) && Involved(trades, o) :: o.id in store && MirrorsOrder(d, store[o.id], o, horizon)
  }

  predicate DistinctOrders(events: seq<Event>) {
    forall i, j | 0 <= i < j < |events| && events[i].OrderPlaced? && events[j].OrderPlaced? ::
      events[i].order.id != events[j].order.id
  }

  predicate NoSelfTrades(trades: seq<Trade>) {
    forall t | t in trades :: t.TraderOn(Bid) != t.TraderOn(Ask)
  }

  // On-chain the trader holds at least what was credited to it off-chain.
  ghost predicate TraderFunded(d: Deployment, chain: Chain, app: App, t: TraderId) {
    && SumOf(CreditedTo(t, app.market.base), app.events) <= BalanceOr(chain, d.key(t)).base
    && SumOf(CreditedTo(t, app.market.quote), app.events) <= BalanceOr(chain, d.key(t)).quote
  }

  predicate TakesPart(trades: seq<Trade>, t: TraderId) {
    exists x :: x in trades && (x.TraderOn(Bid) == t || x.TraderOn(Ask) == t)
  }

  ghost predicate Funded(d: Deployment, chain: Chain, app: App, trades: seq<Trade>) {
    forall t | TakesPart(trades, t) :: TraderFunded(d, chain, app, t)
  }

  // None of the orders the trades need has been filled or cancelled on-chain yet.
  ghost predicate Untouched(d: Deployment, store: Store, chain: Chain, events: seq<Event>, trades: seq<Trade>) {
    forall o | IsPlaced(events, o) && Involved(trades, o) && o.id in store :: Standing(chain, store[o.id].hash, 0)
  }

  predicate Standing(chain: Chain, hash: Digest, filled: nat) {
    FilledQuantity(chain, hash) == filled && (hash in chain.fills ==> !chain.fills[hash].cancelled)
  }

  // One settlement to submit: which trade, under which id, at which slot.
  datatype Job = Job(trade: Trade, id: U64, slot: U64)

  function TradesOfJobs(jobs: seq<Job>): seq<Trade> {
    if jobs == [] then [] else TradesOfJobs(jobs[..|jobs| - 1]) + [jobs[|jobs| - 1].trade]
  }

  datatype SettleError = BridgeFailed(e: BridgeError) | ProgramFailed(p: ProgramError)

  // The transaction for a request: the two signature checks, and the settlement behind them.
  function TransactionOf(r: SettlementRequest, slot: U64): Instruction {
    var a := r.args;
    SettleSignedIx(
      r.authority, slot,
      [CheckInstruction(r.buyer, a.buyerSignature, Preimage(a.buyerOrder)),
       CheckInstruction(r.seller, a.sellerSignature, Preimage(a.sellerOrder))],
      a.settlementId, a.buyerHash, a.sellerHash, r.buyer, r.seller, a)
  }

  function Submit(d: Deployment, store: Store, chain: Chain, job: Job): Result<Chain, SettleError> {
    match RequestFor(d.bridge, IntentFrom(job.trade.taker, job.trade.fill), store, job.id, 0)
    case Err(e) => Err(BridgeFailed(e))
    case Ok(r) =>
      match Execute(d.program, chain, TransactionOf(r, job.slot))
      case Err(e) => Err(ProgramFailed(e))
      case Ok(chain') => Ok(chain')
  }

  function SubmitAll(d: Deployment, store: Store, chain: Chain, jobs: seq<Job>): Result<Chain, SettleError> {
    if jobs == [] then Ok(chain)
    else
      var before :- SubmitAll(d, store, chain, jobs[..|jobs| - 1]);
      Submit(d, store, before, jobs[|jobs| - 1])
  }

  // A state some sequence of commands leads to.
  ghost predicate Reached(app: App) {
    exists market, commands :: app == Run(market, commands)
  }

  lemma ReachedIsSound(app: App)
    requires Reached(app)
    ensures Sound(app)
  {
    var market, commands :| app == Run(market, commands);
    RunIsSound(market, commands);
  }

  // The buying and the selling order behind a trade, both inside their limits.
  ghost predicate Parties(events: seq<Event>, t: Trade, buy: Order, sell: Order) {
    && IsPlaced(events, buy) && IsPlaced(events, sell)
    && buy.side == Bid && sell.side == Ask
    && buy.id == t.OrderOn(Bid) && buy.trader == t.TraderOn(Bid)
    && sell.id == t.OrderOn(Ask) && sell.trader == t.TraderOn(Ask)
    && sell.price <= t.fill.price <= buy.price
    && t.taker.market == (if t.taker.side == Bid then buy.market else sell.market)
  }

  lemma FindParties(app: App, t: Trade) returns (buy: Order, sell: Order)
    requires Reached(app) && t in TradesIn(app.events)
    ensures Parties(app.events, t, buy, sell)
  {
    ReachedIsSound(app);
    assert HasParties(app.events, t);
    var maker :| MadeBy(t, maker) && WasPlaced(app.events, maker);
    var m :| m in app.events && m.OrderPlaced? && SameTerms(m.order, maker);
    var k :| k in app.events && k.OrderPlaced? && SameTerms(k.order, t.taker);
    assert IsPlaced(app.events, m.order) && IsPlaced(app.events, k.order);
    buy, sell := if t.taker.side == Bid then k.order else m.order, if t.taker.side == Bid then m.order else k.order;
  }

  lemma SameIdSameOrder(events: seq<Event>, a: Order, b: Order)
    requires DistinctOrders(events) && IsPlaced(events, a) && IsPlaced(events, b) && a.id == b.id
    ensures a == b
  {
    var e :| e in events && e.OrderPlaced? && e.order == a;
    var f :| f in events && f.OrderPlaced? && f.order == b;
    var i :| 0 <= i < |events| && events[i] == e;
    var j :| 0 <= j < |events| && events[j] == f;
  }

  lemma {:induction false} NothingBefore(init: seq<Event>, last: Event)
    requires last.OrderPlaced? && DistinctOrders(init + [last])
    ensures SumOf(OriginalPlaced(last.order.side, OrderNo(last.order.id)), init) == 0
  {
    var events := init + [last];
    forall e | e in init ensures OriginalPlaced(last.order.side, OrderNo(last.order.id))(e) == 0 {
      var i :| 0 <= i < |init| && init[i] == e;
      assert events[i] == e && events[|init|] == last;
    }
    SumZero(OriginalPlaced(last.order.side, OrderNo(last.order.id)), init);
  }

  lemma PlacedEarlier(init: seq<Event>, last: Event, o: Order)
    requires DistinctOrders(init + [last]) && IsPlaced(init + [last], o)
    requires !(last.OrderPlaced? && last.order == o)
    ensures DistinctOrders(init) && IsPlaced(init, o)
    ensures last.OrderPlaced? ==> last.order.id != o.id
  {
    var events := init + [last];
    var e :| e in events && e.OrderPlaced? && e.order == o;
    assert e in init;
    var i :| 0 <= i < |init| && init[i] == e;
    assert events[i] == e && events[|init|] == last;
    assert forall k | 0 <= k < |init| :: init[k] == events[k];
  }

  lemma {:induction false} OneOrderOneSum(events: seq<Event>, o: Order)
    requires DistinctOrders(events) && IsPlaced(events, o)
    ensures SumOf(OriginalPlaced(o.side, OrderNo(o.id)), events) == o.original
  {
    var init, last := events[..|events| - 1], events[|events| - 1];
    assert events == init + [last];
    if last.OrderPlaced? && last.order == o {
      NothingBefore(init, last);
    } else {
      PlacedEarlier(init, last, o);
      OneOrderOneSum(init, o);
    }
  }

  /** Whatever part of the trades is settled, no buyer pays more and no seller gives more than it deposited. */
  lemma {:induction false} TradersCanPay(app: App, part: seq<Trade>, t: TraderId)
    requires Reached(app) && multiset(part) <= multiset(TradesIn(app.events))
    ensures SumOf(CostFilled(Bid, Trader(t)), part) <= SumOf(CreditedTo(t, app.market.quote), app.events)
    ensures SumOf(QuantityFilled(Ask, Trader(t)), part) <= SumOf(CreditedTo(t, app.market.base), app.events)
  {
    ReachedIsSound(app);
    SubMultisetSum(CostFilled(Bid, Trader(t)), part, TradesIn(app.events));
    SubMultisetSum(QuantityFilled(Ask, Trader(t)), part, TradesIn(app.events));
    ReservedByOrders(app.market, app.events, t);
    FreshSumsEqual(app.events, Ask, Trader(t));
    assert LedgerHolds(app, t, app.market.quote) && LedgerHolds(app, t, app.market.base);
    assert BuyersCovered(app, Trader(t)) && Conserves(app, Ask, Trader(t));
  }

  /** Whatever part of the trades is settled, no order is filled beyond its signed quantity. */
  lemma {:induction false} OrdersNotOverfilled(app: App, part: seq<Trade>, o: Order)
    requires Reached(app) && multiset(part) <= multiset(TradesIn(app.events))
    requires DistinctOrders(app.events) && IsPlaced(app.events, o)
    ensures SumOf(QuantityFilled(o.side, OrderNo(o.id)), part) <= o.original
  {
    ReachedIsSound(app);
    SubMultisetSum(QuantityFilled(o.side, OrderNo(o.id)), part, TradesIn(app.events));
    FreshSumsEqual(app.events, o.side, OrderNo(o.id));
    OneOrderOneSum(app.events, o);
    assert Conserves(app, o.side, OrderNo(o.id));
  }

  // The request the bridge builds for a trade between two mirrored orders.
  function RequestOf(d: Deployment, store: Store, job: Job, buy: Order, sell: Order): SettlementRequest
    requires buy.id in store && sell.id in store
  {
    var b, s := store[buy.id], store[sell.id];
    SettlementRequest(d.bridge.authority, b.order.trader, s.order.trader, d.bridge.payer,
                      SignedFillArgs(job.id, job.trade.fill.price, job.trade.fill.quantity, b.hash, s.hash,
                                     b.order, b.signature, s.order, s.signature))
  }

  function SubmitIx(d: Deployment, store: Store, job: Job, buy: Order, sell: Order): Instruction
    requires buy.id in store && sell.id in store
  {
    TransactionOf(RequestOf(d, store, job, buy, sell), job.slot)
  }

  ghost predicate BothMirrored(d: Deployment, store: Store, buy: Order, sell: Order, horizon: U64) {
    && buy.id in store && MirrorsOrder(d, store[buy.id], buy, horizon)
    && sell.id in store && MirrorsOrder(d, store[sell.id], sell, horizon)
  }

  lemma PartiesMirrored(
    d: Deployment, store: Store, events: seq<Event>, trades: seq<Trade>, t: Trade, buy: Order, sell: Order,
    horizon: U64)
    requires Mirrored(d, store, events, trades, horizon) && Parties(events, t, buy, sell) && t in trades
    ensures Involved(trades, buy) && Involved(trades, sell) && BothMirrored(d, store, buy, sell, horizon)
  {
    assert Involved(trades, buy) && Involved(trades, sell);
  }

  lemma BridgeAccepts(
    d: Deployment, store: Store, events: seq<Event>, job: Job, first: U64, index: nat, buy: Order, sell: Order,
    horizon: U64)
    requires BothMirrored(d, store, buy, sell, horizon) && Parties(events, job.trade, buy, sell)
    requires job.trade.fill.quantity <= buy.original && job.trade.fill.quantity <= sell.original
    requires first + index == job.id
    ensures RequestFor(d.bridge, IntentFrom(job.trade.taker, job.trade.fill), store, first, index)
            == Ok(RequestOf(d, store, job, buy, sell))
  {
  }

  // Everything the program looks at once the request itself is in order.
  ghost predicate Payable(d: Deployment, store: Store, chain: Chain, job: Job, buy: Order, sell: Order)
    requires buy.id in store && sell.id in store
  {
    var fill := job.trade.fill;
    var cost := fill.price * fill.quantity;
    var b, s := BalanceOr(chain, d.key(buy.trader)), BalanceOr(chain, d.key(sell.trader));
    && d.key(buy.trader) in chain.balances && d.key(sell.trader) in chain.balances
    && job.id !in chain.receipts && !chain.paused
    && cost <= b.quote && fill.quantity <= s.base
    && b.base + fill.quantity < TWO_64 && s.quote + cost < TWO_64
    && (exists f: nat :: Standing(chain, store[buy.id].hash, f) && f + fill.quantity <= buy.original)
    && (exists f: nat :: Standing(chain, store[sell.id].hash, f) && f + fill.quantity <= sell.original)
  }

  // The two signature checks in front of the settlement succeed and are the ones the program looks for.
  lemma SignaturesPass(d: Deployment, store: Store, job: Job, buy: Order, sell: Order, horizon: U64)
    requires BothMirrored(d, store, buy, sell, horizon)
    ensures var r, ix := RequestOf(d, store, job, buy, sell), SubmitIx(d, store, job, buy, sell);
            && VerifySignatures(ix.earlier, r.buyer, r.seller, r.args).Ok?
            && forall i | 0 <= i < |ix.earlier| :: Succeeds(d.program, ix.earlier[i])
  {
    var b, s := store[buy.id], store[sell.id];
    CheckInstructionPasses(d.key(buy.trader), b.signature, Preimage(b.order));
    CheckInstructionPasses(d.key(sell.trader), s.signature, Preimage(s.order));
  }

  lemma AccountsPass(d: Deployment, store: Store, chain: Chain, job: Job, buy: Order, sell: Order, horizon: U64)
    requires WellDeployed(d) && BothMirrored(d, store, buy, sell, horizon)
    requires Payable(d, store, chain, job, buy, sell) && buy.trader != sell.trader
    ensures var r := RequestOf(d, store, job, buy, sell);
            SettlementAccounts(d.program, chain, r.authority, job.id, r.buyer, r.seller).Ok?
  {
  }

  lemma RulesPass(d: Deployment, store: Store, events: seq<Event>, job: Job, buy: Order, sell: Order, horizon: U64)
    requires WellDeployed(d) && BothMirrored(d, store, buy, sell, horizon) && job.slot <= horizon
    requires Parties(events, job.trade, buy, sell) && buy.trader != sell.trader
    requires job.trade.fill.quantity <= buy.original && job.trade.fill.quantity <= sell.original
    ensures ValidateFillRules(RequestOf(d, store, job, buy, sell).args, job.slot).Ok?
  {
  }

  lemma ChecksPass(
    d: Deployment, store: Store, chain: Chain, job: Job, buy: Order, sell: Order, horizon: U64)
    requires WellDeployed(d) && BothMirrored(d, store, buy, sell, horizon) && !chain.paused
    requires buy.side == Bid && sell.side == Ask
    requires ValidateFillRules(RequestOf(d, store, job, buy, sell).args, job.slot).Ok?
    ensures var r, ix := RequestOf(d, store, job, buy, sell), SubmitIx(d, store, job, buy, sell);
            ValidateSigned(d.program, chain, job.slot, ix.earlier, job.id, r.args.buyerHash, r.args.sellerHash,
                           r.buyer, r.seller, r.args).Ok?
  {
    SignaturesPass(d, store, job, buy, sell, horizon);
  }

  lemma FillsAndFundsSuffice(d: Deployment, store: Store, chain: Chain, job: Job, buy: Order, sell: Order)
    requires WellDeployed(d) && Keyed(d.program, chain)
    requires buy.id in store && sell.id in store
    requires store[buy.id].order.trader == d.key(buy.trader) && store[buy.id].order.quantity == buy.original
    requires store[sell.id].order.trader == d.key(sell.trader) && store[sell.id].order.quantity == sell.original
    requires Payable(d, store, chain, job, buy, sell)
    ensures var r := RequestOf(d, store, job, buy, sell);
            ApplySigned(d.program, chain, job.id, r.args.buyerHash, r.args.sellerHash, r.buyer, r.seller, r.args).Ok?
  {
    LoadKeepsState(d.program, chain, store[buy.id].hash);
    LoadKeepsState(d.program, chain, store[sell.id].hash);
  }

  // A settlement whose accounts, checks and movements are all in order goes through.
  lemma SettlementSucceeds(p: Program, chain: Chain, ix: Instruction)
    requires ix.SettleSignedIx? && forall i | 0 <= i < |ix.earlier| :: Succeeds(p, ix.earlier[i])
    requires SettlementAccounts(p, chain, ix.caller, ix.id, ix.buyer, ix.seller).Ok?
    requires ValidateSigned(p, chain, ix.slot, ix.earlier, ix.id, ix.buyerHash, ix.sellerHash,
                            ix.buyer, ix.seller, ix.args).Ok?
    requires ApplySigned(p, chain, ix.id, ix.buyerHash, ix.sellerHash, ix.buyer, ix.seller, ix.args).Ok?
    ensures Execute(p, chain, ix).Ok?
  {
  }

  lemma ProgramAccepts(
    d: Deployment, store: Store, events: seq<Event>, chain: Chain, job: Job, buy: Order, sell: Order, horizon: U64)
    requires WellDeployed(d) && BothMirrored(d, store, buy, sell, horizon) && job.slot <= horizon
    requires Parties(events, job.trade, buy, sell) && buy.trader != sell.trader
    requires Keyed(d.program, chain) && Payable(d, store, chain, job, buy, sell)
    ensures Execute(d.program, chain, SubmitIx(d, store, job, buy, sell)).Ok?
  {
    SignaturesPass(d, store, job, buy, sell, horizon);
    AccountsPass(d, store, chain, job, buy, sell, horizon);
    RulesPass(d, store, events, job, buy, sell, horizon);
    ChecksPass(d, store, chain, job, buy, sell, horizon);
    FillsAndFundsSuffice(d, store, chain, job, buy, sell);
    SettlementSucceeds(d.program, chain, SubmitIx(d, store, job, buy, sell));
  }

  // One trader's balance after some of the trades are settled.
  ghost predicate Moved(d: Deployment, start: Chain, chain: Chain, done: seq<Trade>, t: TraderId) {
    var was, now := BalanceOr(start, d.key(t)), BalanceOr(chain, d.key(t));
    && now.base + SumOf(QuantityFilled(Ask, Trader(t)), done) == was.base + SumOf(QuantityFilled(Bid, Trader(t)), done)
    && now.quote + SumOf(CostFilled(Bid, Trader(t)), done) == was.quote + SumOf(CostFilled(Ask, Trader(t)), done)
  }

  // The chain after exactly the trades `done`, out of all the trades to settle, have been settled from `start`.
  ghost predicate Progress(
    d: Deployment, store: Store, events: seq<Event>, trades: seq<Trade>, start: Chain, done: seq<Trade>, chain: Chain) {
    && Backed(chain) && Keyed(d.program, chain) && !chain.paused
    && (forall t :: Moved(d, start, chain, done, t))
    && (forall o | IsPlaced(events, o) && Involved(trades, o) && o.id in store ::
          Standing(chain, store[o.id].hash, SumOf(QuantityFilled(o.side, OrderNo(o.id)), done)))
  }

  lemma QuoteFits(app: App, t: Trade, buy: Order, sell: Order)
    requires Reached(app) && Parties(app.events, t, buy, sell) && t.fill.quantity <= buy.original
    ensures t.fill.price * t.fill.quantity < TWO_64
  {
    ReachedIsSound(app);
    var e :| e in app.events && e.OrderPlaced? && e.order == buy;
    assert B.ReservationFor(buy, app.market).Ok?;
    B.ProductBound(t.fill.price, t.fill.quantity, buy.price);
    B.ProductBound(t.fill.quantity, buy.price, buy.original);
  }

  // Neither party runs out of funds: what they give in all the trades settled so far and this one was deposited.
  lemma {:induction false} BuyerHasFunds(
    d: Deployment, app: App, start: Chain, done: seq<Trade>, chain: Chain, x: Trade, b: TraderId)
    requires TraderFunded(d, start, app, b) && Moved(d, start, chain, done, b) && b == x.TraderOn(Bid)
    requires SumOf(CostFilled(Bid, Trader(b)), done + [x]) <= SumOf(CreditedTo(b, app.market.quote), app.events)
    ensures x.fill.price * x.fill.quantity <= BalanceOr(chain, d.key(b)).quote
  {
    SumPush(CostFilled(Bid, Trader(b)), done, x);
  }

  lemma {:induction false} SellerHasFunds(
    d: Deployment, app: App, start: Chain, done: seq<Trade>, chain: Chain, x: Trade, s: TraderId)
    requires TraderFunded(d, start, app, s) && Moved(d, start, chain, done, s) && s == x.TraderOn(Ask)
    requires SumOf(QuantityFilled(Ask, Trader(s)), done + [x]) <= SumOf(CreditedTo(s, app.market.base), app.events)
    ensures x.fill.quantity <= BalanceOr(chain, d.key(s)).base
  {
    SumPush(QuantityFilled(Ask, Trader(s)), done, x);
  }

  // Neither balance overflows: two traders together hold no more than the vault.
  lemma NoOverflow(chain: Chain, b: Pubkey, s: Pubkey, base: nat, quote: nat)
    requires Backed(chain) && b != s
    requires 0 < quote <= BalanceOr(chain, b).quote && 0 < base <= BalanceOr(chain, s).base
    ensures b in chain.balances && s in chain.balances
    ensures BalanceOr(chain, b).base + base < TWO_64 && BalanceOr(chain, s).quote + quote < TWO_64
  {
    SumMapAtLeastTwo(BaseHeld(), chain.balances, b, s);
    SumMapAtLeastTwo(QuoteHeld(), chain.balances, b, s);
  }

  // An order still has room for this trade.
  lemma {:induction false} RoomLeft(app: App, done: seq<Trade>, x: Trade, o: Order)
    requires Reached(app) && DistinctOrders(app.events) && IsPlaced(app.events, o)
    requires multiset(done + [x]) <= multiset(TradesIn(app.events))
    requires x.OrderOn(o.side) == o.id
    ensures SumOf(QuantityFilled(o.side, OrderNo(o.id)), done) + x.fill.quantity <= o.original
  {
    OrdersNotOverfilled(app, done + [x], o);
    SumPush(QuantityFilled(o.side, OrderNo(o.id)), done, x);
  }

  lemma TradeIsPayable(
    d: Deployment, store: Store, app: App, trades: seq<Trade>, start: Chain, done: seq<Trade>, chain: Chain, job: Job,
    buy: Order, sell: Order)
    requires Reached(app) && DistinctOrders(app.events) && WellDeployed(d)
    requires Funded(d, start, app, trades) && Progress(d, store, app.events, trades, start, done, chain)
    requires multiset(done + [job.trade]) <= multiset(TradesIn(app.events))
    requires Parties(app.events, job.trade, buy, sell) && buy.id in store && sell.id in store
    requires job.trade in trades && Involved(trades, buy) && Involved(trades, sell)
    requires buy.trader != sell.trader && job.id !in chain.receipts
    ensures Payable(d, store, chain, job, buy, sell)
    ensures job.trade.fill.quantity <= buy.original && job.trade.fill.quantity <= sell.original
  {
    var x := job.trade;
    assert TakesPart(trades, buy.trader) && TakesPart(trades, sell.trader);
    assert Moved(d, start, chain, done, buy.trader) && Moved(d, start, chain, done, sell.trader);
    TradersCanPay(app, done + [x], buy.trader);
    TradersCanPay(app, done + [x], sell.trader);
    BuyerHasFunds(d, app, start, done, chain, x, buy.trader);
    SellerHasFunds(d, app, start, done, chain, x, sell.trader);
    RoomLeft(app, done, x, buy);
    RoomLeft(app, done, x, sell);
    QuoteFits(app, x, buy, sell);
    B.ProductBound(1, x.fill.quantity, x.fill.price);
    NoOverflow(chain, d.key(buy.trader), d.key(sell.trader), x.fill.quantity, x.fill.price * x.fill.quantity);
  }

  lemma MovedByOne(
    d: Deployment, start: Chain, done: seq<Trade>, chain: Chain, chain': Chain, x: Trade, r: Receipt, t: TraderId)
    requires WellDeployed(d) && Moved(d, start, chain, done, t)
    requires Transfers(chain, chain', r)
    requires r.buyer == d.key(x.TraderOn(Bid)) && r.seller == d.key(x.TraderOn(Ask))
    requires r.base == x.fill.quantity && r.quote == x.fill.price * x.fill.quantity
    ensures Moved(d, start, chain', done + [x], t)
  {
    SumPush(QuantityFilled(Bid, Trader(t)), done, x);
    SumPush(QuantityFilled(Ask, Trader(t)), done, x);
    SumPush(CostFilled(Bid, Trader(t)), done, x);
    SumPush(CostFilled(Ask, Trader(t)), done, x);
  }

  lemma DifferentOrdersDifferentHashes(d: Deployment, store: Store, a: Order, b: Order, horizon: U64)
    requires WellDeployed(d) && BothMirrored(d, store, a, b, horizon) && a.id != b.id
    ensures store[a.id].hash != store[b.id].hash
  {
    if store[a.id].hash == store[b.id].hash {
      PreimageInjective(store[a.id].order, store[b.id].order);
    }
  }

  lemma {:induction false} StandingAfter(
    d: Deployment, store: Store, events: seq<Event>, chain: Chain, done: seq<Trade>, job: Job,
    buy: Order, sell: Order, o: Order, horizon: U64)
    requires WellDeployed(d) && BothMirrored(d, store, buy, sell, horizon) && DistinctOrders(events)
    requires Parties(events, job.trade, buy, sell)
    requires IsPlaced(events, o) && o.id in store && MirrorsOrder(d, store[o.id], o, horizon) && Keyed(d.program, chain)
    requires Standing(chain, store[o.id].hash, SumOf(QuantityFilled(o.side, OrderNo(o.id)), done))
    requires Execute(d.program, chain, SubmitIx(d, store, job, buy, sell)).Ok?
    ensures Standing(Execute(d.program, chain, SubmitIx(d, store, job, buy, sell)).value, store[o.id].hash,
                     SumOf(QuantityFilled(o.side, OrderNo(o.id)), done + [job.trade]))
  {
    var x, ix := job.trade, SubmitIx(d, store, job, buy, sell);
    SumPush(QuantityFilled(o.side, OrderNo(o.id)), done, x);
    FillsAfter(d.program, chain, ix);
    OrdersHaveOwnStates(d.program, chain, ix);
    if o.id == buy.id {
      SameIdSameOrder(events, o, buy);
    } else if o.id == sell.id {
      SameIdSameOrder(events, o, sell);
    } else {
      DifferentOrdersDifferentHashes(d, store, o, buy, horizon);
      DifferentOrdersDifferentHashes(d, store, o, sell, horizon);
    }
  }

  lemma ProgressByOne(
    d: Deployment, store: Store, events: seq<Event>, trades: seq<Trade>, start: Chain, done: seq<Trade>, chain: Chain,
    job: Job, buy: Order, sell: Order, horizon: U64)
    requires WellDeployed(d) && Mirrored(d, store, events, trades, horizon) && DistinctOrders(events)
    requires Parties(events, job.trade, buy, sell) && BothMirrored(d, store, buy, sell, horizon)
    requires Progress(d, store, events, trades, start, done, chain)
    requires Execute(d.program, chain, SubmitIx(d, store, job, buy, sell)).Ok?
    ensures var chain' := Execute(d.program, chain, SubmitIx(d, store, job, buy, sell)).value;
            && Progress(d, store, events, trades, start, done + [job.trade], chain')
            && chain'.receipts.Keys == chain.receipts.Keys + {job.id}
  {
    var x, ix := job.trade, SubmitIx(d, store, job, buy, sell);
    var chain' := Execute(d.program, chain, ix).value;
    SettlementTransfers(d.program, chain, ix);
    SettleKeepsMarketOpen(d.program, chain, ix);
    ExecuteKeepsBacked(d.program, chain, ix);
    ExecuteKeepsKeyed(d.program, chain, ix);
    forall t ensures Moved(d, start, chain', done + [x], t) {
      MovedByOne(d, start, done, chain, chain', x, ReceiptOf(ix), t);
    }
    forall o | IsPlaced(events, o) && Involved(trades, o) && o.id in store
      ensures Standing(chain', store[o.id].hash, SumOf(QuantityFilled(o.side, OrderNo(o.id)), done + [x])) {
      StandingAfter(d, store, events, chain, done, job, buy, sell, o, horizon);
    }
  }

  lemma SubmitSettles(
    d: Deployment, store: Store, app: App, trades: seq<Trade>, start: Chain, done: seq<Trade>, chain: Chain, job: Job,
    horizon: U64)
    returns (chain': Chain)
    requires Reached(app) && DistinctOrders(app.events)
    requires WellDeployed(d) && Mirrored(d, store, app.events, trades, horizon) && Funded(d, start, app, trades)
    requires Progress(d, store, app.events, trades, start, done, chain)
    requires job.trade in trades && multiset(done + [job.trade]) <= multiset(TradesIn(app.events))
    requires job.trade.TraderOn(Bid) != job.trade.TraderOn(Ask)
    requires job.id !in chain.receipts && job.slot <= horizon
    ensures Submit(d, store, chain, job) == Ok(chain')
    ensures Progress(d, store, app.events, trades, start, done + [job.trade], chain')
    ensures chain'.receipts.Keys == chain.receipts.Keys + {job.id}
  {
    assert job.trade in multiset(done + [job.trade]);
    var buy, sell := FindParties(app, job.trade);
    PartiesMirrored(d, store, app.events, trades, job.trade, buy, sell, horizon);
    TradeIsPayable(d, store, app, trades, start, done, chain, job, buy, sell);
    BridgeAccepts(d, store, app.events, job, job.id, 0, buy, sell, horizon);
    ProgramAccepts(d, store, app.events, chain, job, buy, sell, horizon);
    SubmitIsExecute(d, store, chain, job, buy, sell);
    ProgressByOne(d, store, app.events, trades, start, done, chain, job, buy, sell, horizon);
    chain' := Execute(d.program, chain, SubmitIx(d, store, job, buy, sell)).value;
  }

  lemma SubmitIsExecute(d: Deployment, store: Store, chain: Chain, job: Job, buy: Order, sell: Order)
    requires buy.id in store && sell.id in store
    requires RequestFor(d.bridge, IntentFrom(job.trade.taker, job.trade.fill), store, job.id, 0)
             == Ok(RequestOf(d, store, job, buy, sell))
    requires Execute(d.program, chain, SubmitIx(d, store, job, buy, sell)).Ok?
    ensures Submit(d, store, chain, job) == Ok(Execute(d.program, chain, SubmitIx(d, store, job, buy, sell)).value)
  {
  }

  lemma SettleKeepsMarketOpen(p: Program, chain: Chain, ix: Instruction)
    requires Execute(p, chain, ix).Ok?
    ensures Execute(p, chain, ix).value.paused == chain.paused
  {
  }

  // A request for a trade of one trader with itself names the same signer twice.
  lemma SelfTradeRequest(
    d: Deployment, store: Store, events: seq<Event>, job: Job, buy: Order, sell: Order, horizon: U64)
    requires BothMirrored(d, store, buy, sell, horizon) && Parties(events, job.trade, buy, sell)
    requires buy.trader == sell.trader
    ensures var r := RequestFor(d.bridge, IntentFrom(job.trade.taker, job.trade.fill), store, job.id, 0);
            r.Ok? ==> r.value.args.buyerOrder.trader == r.value.args.sellerOrder.trader
  {
  }

  lemma SameSignerFails(p: Program, chain: Chain, r: SettlementRequest, slot: U64)
    requires r.args.buyerOrder.trader == r.args.sellerOrder.trader
    ensures Execute(p, chain, TransactionOf(r, slot)).Err?
  {
    assert ValidateFillRules(r.args, slot).Err?;
  }

  /** The converse: a trade of one trader with itself is never accepted, whatever the chain holds. */
  lemma SelfTradeNeverSettles(
    d: Deployment, store: Store, app: App, trades: seq<Trade>, chain: Chain, job: Job, horizon: U64)
    requires Reached(app) && Mirrored(d, store, app.events, trades, horizon)
    requires job.trade in trades && job.trade in TradesIn(app.events)
    requires job.trade.TraderOn(Bid) == job.trade.TraderOn(Ask)
    ensures Submit(d, store, chain, job).Err?
  {
    var buy, sell := FindParties(app, job.trade);
    PartiesMirrored(d, store, app.events, trades, job.trade, buy, sell, horizon);
    SelfTradeRequest(d, store, app.events, job, buy, sell, horizon);
    var r := RequestFor(d.bridge, IntentFrom(job.trade.taker, job.trade.fill), store, job.id, 0);
    if r.Ok? {
      SameSignerFails(d.program, chain, r.value, job.slot);
    }
  }

  // A request carries the two orders that were stored for the trade's own orders.
  lemma RequestCarriesOrders(d: Deployment, store: Store, job: Job, r: SettlementRequest)
    requires RequestFor(d.bridge, IntentFrom(job.trade.taker, job.trade.fill), store, job.id, 0) == Ok(r)
    ensures job.trade.OrderOn(Bid) in store && job.trade.OrderOn(Ask) in store
    ensures {r.args.buyerOrder, r.args.sellerOrder}
            == {store[job.trade.OrderOn(Bid)].order, store[job.trade.OrderOn(Ask)].order}
  {
  }

  /** Nor is a trade accepted in a slot past the expiry of one of its two orders. */
  lemma LateNeverSettles(d: Deployment, store: Store, chain: Chain, job: Job, side: Side)
    requires job.trade.OrderOn(side) in store && job.slot > store[job.trade.OrderOn(side)].order.expirySlot
    ensures Submit(d, store, chain, job).Err?
  {
    var r := RequestFor(d.bridge, IntentFrom(job.trade.taker, job.trade.fill), store, job.id, 0);
    if r.Ok? {
      RequestCarriesOrders(d, store, job, r.value);
      assert store[job.trade.OrderOn(side)].order in {r.value.args.buyerOrder, r.value.args.sellerOrder};
      LateFails(d.program, chain, r.value, job.slot);
    }
  }

  lemma LateFails(p: Program, chain: Chain, r: SettlementRequest, slot: U64)
    requires slot > r.args.buyerOrder.expirySlot || slot > r.args.sellerOrder.expirySlot
    ensures Execute(p, chain, TransactionOf(r, slot)).Err?
  {
    assert ValidateFillRules(r.args, slot).Err?;
  }

  /** A batch carries its command, and each intent names the parties, the orders, the price and the quantity of its
      trade. */
  lemma BatchNamesParties(command: CommandId, taker: Order, fills: seq<Fill>, i: nat)
    requires i < |fills|
    ensures var batch, t := BatchFrom(command, taker, fills), Trade(taker, fills[i]);
            && batch.command == command && |batch.intents| == |fills|
            && batch.intents[i] == SettlementIntent(
                 taker.market, t.TraderOn(Bid), t.TraderOn(Ask), fills[i].makerOrder, fills[i].takerOrder,
                 fills[i].price, fills[i].quantity)
  {
  }

  predicate FreshJobs(jobs: seq<Job>, used: set<U64>, horizon: U64) {
    && (forall i | 0 <= i < |jobs| :: jobs[i].id !in used && jobs[i].slot <= horizon)
    && (forall i, j | 0 <= i < j < |jobs| :: jobs[i].id != jobs[j].id)
  }

  lemma LastJob(jobs: seq<Job>, used: set<U64>, horizon: U64)
    requires jobs != [] && FreshJobs(jobs, used, horizon)
    ensures var init, job := jobs[..|jobs| - 1], jobs[|jobs| - 1];
            && FreshJobs(init, used, horizon)
            && job.slot <= horizon && job.id !in used + (set j | j in init :: j.id)
            && (set j | j in jobs :: j.id) == (set j | j in init :: j.id) + {job.id}
  {
    var init, job := jobs[..|jobs| - 1], jobs[|jobs| - 1];
    assert jobs == init + [job];
  }

  lemma LastTrade(jobs: seq<Job>, trades: seq<Trade>)
    requires jobs != [] && multiset(TradesOfJobs(jobs)) <= multiset(trades)
    ensures var init, job := jobs[..|jobs| - 1], jobs[|jobs| - 1];
            && TradesOfJobs(jobs) == TradesOfJobs(init) + [job.trade]
            && multiset(TradesOfJobs(init)) <= multiset(trades)
            && job.trade in trades
  {
    assert jobs[|jobs| - 1].trade in multiset(TradesOfJobs(jobs));
  }

  // Every job was accepted, exactly its trades have moved, and exactly its ids have receipts.
  ghost predicate AllSettled(
    d: Deployment, store: Store, events: seq<Event>, trades: seq<Trade>, start: Chain, jobs: seq<Job>) {
    exists chain :: SettledTo(d, store, events, trades, start, jobs, chain)
  }

  ghost predicate SettledTo(
    d: Deployment, store: Store, events: seq<Event>, trades: seq<Trade>, start: Chain, jobs: seq<Job>, chain: Chain) {
    && SubmitAll(d, store, start, jobs) == Ok(chain)
    && Progress(d, store, events, trades, start, TradesOfJobs(jobs), chain)
    && chain.receipts.Keys == start.receipts.Keys + (set j | j in jobs :: j.id)
  }

  lemma {:induction false} SubmitPush(
    d: Deployment, store: Store, start: Chain, jobs: seq<Job>, before: Chain, after: Chain)
    requires jobs != [] && SubmitAll(d, store, start, jobs[..|jobs| - 1]) == Ok(before)
    requires Submit(d, store, before, jobs[|jobs| - 1]) == Ok(after)
    ensures SubmitAll(d, store, start, jobs) == Ok(after)
  {
  }

  lemma {:induction false} OneMoreJob(
    d: Deployment, store: Store, app: App, trades: seq<Trade>, start: Chain, jobs: seq<Job>, before: Chain,
    horizon: U64)
    returns (after: Chain)
    requires Reached(app) && DistinctOrders(app.events)
    requires WellDeployed(d) && Mirrored(d, store, app.events, trades, horizon) && Funded(d, start, app, trades)
    requires jobs != [] && FreshJobs(jobs, start.receipts.Keys, horizon) && jobs[|jobs| - 1].trade in trades
    requires multiset(TradesOfJobs(jobs)) <= multiset(TradesIn(app.events))
    requires jobs[|jobs| - 1].trade.TraderOn(Bid) != jobs[|jobs| - 1].trade.TraderOn(Ask)
    requires SettledTo(d, store, app.events, trades, start, jobs[..|jobs| - 1], before)
    ensures SettledTo(d, store, app.events, trades, start, jobs, after)
  {
    var init, job := jobs[..|jobs| - 1], jobs[|jobs| - 1];
    LastJob(jobs, start.receipts.Keys, horizon);
    after := SubmitSettles(d, store, app, trades, start, TradesOfJobs(init), before, job, horizon);
    SubmitPush(d, store, start, jobs, before, after);
  }

  lemma {:induction false} JobsSettle(
    d: Deployment, store: Store, app: App, trades: seq<Trade>, start: Chain, jobs: seq<Job>, horizon: U64)
    requires Reached(app) && DistinctOrders(app.events)
    requires WellDeployed(d) && Mirrored(d, store, app.events, trades, horizon) && Funded(d, start, app, trades)
    requires Progress(d, store, app.events, trades, start, [], start)
    requires multiset(TradesOfJobs(jobs)) <= multiset(trades) <= multiset(TradesIn(app.events))
    requires FreshJobs(jobs, start.receipts.Keys, horizon) && NoSelfTrades(TradesOfJobs(jobs))
    ensures AllSettled(d, store, app.events, trades, start, jobs)
  {
    if jobs == [] {
      assert SettledTo(d, store, app.events, trades, start, jobs, start);
    } else {
      LastJob(jobs, start.receipts.Keys, horizon);
      LastTrade(jobs, trades);
      JobsSettle(d, store, app, trades, start, jobs[..|jobs| - 1], horizon);
      var before :| SettledTo(d, store, app.events, trades, start, jobs[..|jobs| - 1], before);
      assert jobs[|jobs| - 1].trade in TradesOfJobs(jobs);
      var _ := OneMoreJob(d, store, app, trades, start, jobs, before, horizon);
    }
  }

  /** Jobs that were all accepted contain no trade of a trader with itself. */
  lemma {:induction false} AcceptedAreNotSelfTrades(
    d: Deployment, store: Store, app: App, trades: seq<Trade>, start: Chain, jobs: seq<Job>, horizon: U64)
    requires Reached(app) && Mirrored(d, store, app.events, trades, horizon)
    requires multiset(TradesOfJobs(jobs)) <= multiset(trades) <= multiset(TradesIn(app.events))
    requires SubmitAll(d, store, start, jobs).Ok?
    ensures NoSelfTrades(TradesOfJobs(jobs))
  {
    if jobs != [] {
      var init, job := jobs[..|jobs| - 1], jobs[|jobs| - 1];
      LastTrade(jobs, trades);
      AcceptedAreNotSelfTrades(d, store, app, trades, start, init, horizon);
      if job.trade.TraderOn(Bid) == job.trade.TraderOn(Ask) {
        assert job.trade in multiset(trades);
        SelfTradeNeverSettles(d, store, app, trades, SubmitAll(d, store, start, init).value, job, horizon);
      }
    }
  }

  lemma {:induction false} EventTrades(events: seq<Event>, e: Event, i: nat)
    requires e in events && e.OrderPlaced? && i < |e.fills|
    ensures Trade(e.order, e.fills[i]) in TradesIn(events)
  {
    var init, last := events[..|events| - 1], events[|events| - 1];
    assert events == init + [last];
    if e == last {
      assert TradesOf(e.order, e.fills)[i] == Trade(e.order, e.fills[i]);
    } else {
      EventTrades(init, e, i);
    }
  }

  lemma TradeBridges(
    d: Deployment, store: Store, app: App, trades: seq<Trade>, t: Trade, first: U64, index: nat, horizon: U64)
    requires Reached(app) && DistinctOrders(app.events) && Mirrored(d, store, app.events, trades, horizon)
    requires t in trades && t in TradesIn(app.events) && first + index < TWO_64
    ensures RequestFor(d.bridge, IntentFrom(t.taker, t.fill), store, first, index).Ok?
  {
    var buy, sell := FindParties(app, t);
    PartiesMirrored(d, store, app.events, trades, t, buy, sell, horizon);
    assert [] + [t] == [t];
    RoomLeft(app, [], t, buy);
    RoomLeft(app, [], t, sell);
    BridgeAccepts(d, store, app.events, Job(t, first + index, 0), first, index, buy, sell, horizon);
  }

  /** The bridge turns every batch the engine produced into exactly one request per fill, numbered from `first`. */
  lemma {:induction false} EveryBatchBridges(
    d: Deployment, store: Store, market: Market, commands: seq<Command>, e: Event, first: U64, horizon: U64)
    requires e.OrderPlaced? && first + |e.fills| <= TWO_64
    requires var app := Run(market, commands);
             && DistinctOrders(app.events) && e in app.events
             && Mirrored(d, store, app.events, TradesOf(e.order, e.fills), horizon)
    ensures var intents := BatchFrom(e.command, e.order, e.fills).intents;
            var r := BridgeFirst(d.bridge, intents, store, first, |intents|);
            && r.Ok? && |r.value| == |e.fills|
            && forall i | 0 <= i < |e.fills| ::
                 && r.value[i].args.settlementId == first + i
                 && r.value[i].args.fillPrice == e.fills[i].price
                 && r.value[i].args.fillQuantity == e.fills[i].quantity
  {
    var app, trades := Run(market, commands), TradesOf(e.order, e.fills);
    var intents := BatchFrom(e.command, e.order, e.fills).intents;
    forall i | 0 <= i < |intents|
      ensures RequestFor(d.bridge, intents[i], store, first, i).Ok?
      ensures RequestFor(d.bridge, intents[i], store, first, i).value.args.fillPrice == e.fills[i].price
      ensures RequestFor(d.bridge, intents[i], store, first, i).value.args.fillQuantity == e.fills[i].quantity
    {
      EventTrades(app.events, e, i);
      assert trades[i] == Trade(e.order, e.fills[i]);
      TradeBridges(d, store, app, trades, trades[i], first, i, horizon);
      RequestMeetsRules(d.bridge, intents[i], store, first, i, 0);
    }
    BatchIsComplete(d.bridge, intents, store, first, |intents|);
  }

  lemma NothingDone(d: Deployment, store: Store, events: seq<Event>, trades: seq<Trade>, chain: Chain)
    requires Untouched(d, store, chain, events, trades)
    requires Backed(chain) && Keyed(d.program, chain) && !chain.paused
    ensures Progress(d, store, events, trades, chain, [], chain)
  {
  }

  // A run and a selection of its fills that are ready to be settled on this chain.
  ghost predicate ReadyToSettle(
    d: Deployment, store: Store, app: App, chain: Chain, jobs: seq<Job>, horizon: U64) {
    var trades := TradesOfJobs(jobs);
    && DistinctOrders(app.events) && multiset(trades) <= multiset(TradesIn(app.events))
    && Mirrored(d, store, app.events, trades, horizon)
    && Funded(d, chain, app, trades) && Untouched(d, store, chain, app.events, trades)
    && WellDeployed(d) && Backed(chain) && Keyed(d.program, chain) && !chain.paused
    && FreshJobs(jobs, chain.receipts.Keys, horizon)
  }

  /** The main theorem: after any run with distinct order ids, take any selection of the fills between different
      traders, in any order and with any unused settlement ids, whose orders are mirrored and whose traders are funded.
      All of it settles, and no bridge or program check ever fails. */
  lemma {:induction false} EveryFillSettles(
    d: Deployment, store: Store, market: Market, commands: seq<Command>, chain: Chain, jobs: seq<Job>, horizon: U64)
    requires ReadyToSettle(d, store, Run(market, commands), chain, jobs, horizon)
    requires NoSelfTrades(TradesOfJobs(jobs))
    ensures AllSettled(d, store, Run(market, commands).events, TradesOfJobs(jobs), chain, jobs)
  {
    var app, trades := Run(market, commands), TradesOfJobs(jobs);
    NothingDone(d, store, app.events, trades, chain);
    JobsSettle(d, store, app, trades, chain, jobs, horizon);
  }

  /** And the condition on the selection is exact: it settles if and only if no trader in it trades with itself. */
  lemma {:induction false} SettlesExactly(
    d: Deployment, store: Store, market: Market, commands: seq<Command>, chain: Chain, jobs: seq<Job>, horizon: U64)
    requires ReadyToSettle(d, store, Run(market, commands), chain, jobs, horizon)
    ensures AllSettled(d, store, Run(market, commands).events, TradesOfJobs(jobs), chain, jobs)
            <==> NoSelfTrades(TradesOfJobs(jobs))
  {
    var app, trades := Run(market, commands), TradesOfJobs(jobs);
    if NoSelfTrades(trades) {
      EveryFillSettles(d, store, market, commands, chain, jobs, horizon);
    }
    if AllSettled(d, store, app.events, trades, chain, jobs) {
      AcceptedAreNotSelfTrades(d, store, app, trades, chain, jobs, horizon);
    }
  }
}
