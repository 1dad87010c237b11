/** From fills to signed settlement requests, and the edge state that numbers and queues them. */
module Bridge {
  import opened Types
  import opened Orders
  import opened Matching
  import opened Preimages
  import opened SettlementModel
  import opened SettlementTypes

  datatype SettlementIntent = SettlementIntent(
    market: MarketId,
    buyer: TraderId,
    seller: TraderId,
    makerOrder: OrderId,
    takerOrder: OrderId,
    price: Price,
    quantity: Quantity)

  // The taker's side decides which party of the fill buys.
  function IntentFrom(taker: Order, fill: Fill): SettlementIntent {
    var (buyer, seller) :=
      if taker.side == Bid then (fill.takerTrader, fill.makerTrader) else (fill.makerTrader, fill.takerTrader);
    SettlementIntent(taker.market, buyer, seller, fill.makerOrder, fill.takerOrder, fill.price, fill.quantity)
  }

  datatype SettlementBatch = SettlementBatch(command: CommandId, intents: seq<SettlementIntent>)

  function BatchFrom(command: CommandId, taker: Order, fills: seq<Fill>): SettlementBatch {
    SettlementBatch(command, seq(|fills|, i requires 0 <= i < |fills| => IntentFrom(taker, fills[i])))
  }

  datatype StoredOrder = StoredOrder(trader: TraderId, hash: Digest, order: SignedOrderPayload, signature: Signature)

  type Store = map<OrderId, StoredOrder>

  datatype BridgeError =
    | MissingSignedOrder(id: OrderId)
    | OrderIdOutOfRange(id: OrderId)
    | SignedOrderMismatch
    | MarketMismatch
    | InvalidSignedOrderSides
    | FillOutsideSignedOrders
    | SettlementIdOverflow

  // `marketConfig` is the address derived from the two mints.
  datatype SettlementBridge = SettlementBridge(
    marketId: MarketId, authority: Pubkey, marketConfig: Pubkey, payer: Pubkey)

  datatype SettlementRequest = SettlementRequest(
    authority: Pubkey, buyer: Pubkey, seller: Pubkey, payer: Pubkey, args: SignedFillArgs)

  function ValidateOrder(id: OrderId, s: StoredOrder, marketConfig: Pubkey): Result<(), BridgeError> {
    if id >= TWO_64 then Err(OrderIdOutOfRange(id))
    else if s.order.orderId != id || s.order.market != marketConfig then Err(SignedOrderMismatch)
    else Ok(())
  }

  function BidAndAsk(a: StoredOrder, b: StoredOrder): Result<(StoredOrder, StoredOrder), BridgeError> {
    match (a.order.side, b.order.side)
    case (Bid, Ask) => Ok((a, b))
    case (Ask, Bid) => Ok((b, a))
    case _ => Err(InvalidSignedOrderSides)
  }

  function ValidateFill(intent: SettlementIntent, buyer: StoredOrder, seller: StoredOrder): Result<(), BridgeError> {
    if || buyer.trader != intent.buyer || seller.trader != intent.seller
       || intent.price > buyer.order.price || intent.price < seller.order.price
       || intent.quantity > buyer.order.quantity || intent.quantity > seller.order.quantity
    then Err(FillOutsideSignedOrders)
    else Ok(())
  }

  function RequestFor(bridge: SettlementBridge, intent: SettlementIntent, store: Store, first: U64, index: nat)
    : Result<SettlementRequest, BridgeError>
  {
    if intent.market != bridge.marketId then Err(MarketMismatch)
    else if first + index >= TWO_64 then Err(SettlementIdOverflow)
    else if intent.makerOrder !in store then Err(MissingSignedOrder(intent.makerOrder))
    else if intent.takerOrder !in store then Err(MissingSignedOrder(intent.takerOrder))
    else
      var maker, taker := store[intent.makerOrder], store[intent.takerOrder];
      var sides :- BidAndAsk(maker, taker);
      var (buyer, seller) := sides;
      var _ :- ValidateOrder(intent.makerOrder, maker, bridge.marketConfig);
      var _ :- ValidateOrder(intent.takerOrder, taker, bridge.marketConfig);
      var _ :- ValidateFill(intent, buyer, seller);
      Ok(SettlementRequest(
           bridge.authority, buyer.order.trader, seller.order.trader, bridge.payer,
           SignedFillArgs(first + index, intent.price, intent.quantity, buyer.hash, seller.hash,
                          buyer.order, buyer.signature, seller.order, seller.signature)))
  }

  // The requests for the first n intents; the first failure is the answer for all longer prefixes.
  function BridgeFirst(bridge: SettlementBridge, intents: seq<SettlementIntent>, store: Store, first: U64, n: nat)
    : Result<seq<SettlementRequest>, BridgeError>
    requires n <= |intents|
  {
    if n == 0 then Ok([])
    else
      var before :- BridgeFirst(bridge, intents, store, first, n - 1);
      var request :- RequestFor(bridge, intents[n - 1], store, first, n - 1);
      Ok(before + [request])
  }

  lemma {:induction false} FailureSticks(
    bridge: SettlementBridge, intents: seq<SettlementIntent>, store: Store, first: U64, i: nat, n: nat)
    requires i <= n <= |intents| && BridgeFirst(bridge, intents, store, first, i).Err?
    ensures BridgeFirst(bridge, intents, store, first, n) == BridgeFirst(bridge, intents, store, first, i)
  {
    if i < n {
      FailureSticks(bridge, intents, store, first, i, n - 1);
    }
  }

  method RequestsFromBatch(bridge: SettlementBridge, batch: SettlementBatch, store: Store, first: U64)
    returns (r: Result<seq<SettlementRequest>, BridgeError>)
    ensures r == BridgeFirst(bridge, batch.intents, store, first, |batch.intents|)
  {
    var requests := [];
    var index := 0;
    while index < |batch.intents|
      invariant index <= |batch.intents|
      invariant BridgeFirst(bridge, batch.intents, store, first, index) == Ok(requests)
    {
      var request := RequestFor(bridge, batch.intents[index], store, first, index);
      if request.Err? {
        FailureSticks(bridge, batch.intents, store, first, index + 1, |batch.intents|);
        return Err(request.error);
      }
      requests := requests + [request.value];
      index := index + 1;
    }
    r := Ok(requests);
  }

  /** Soundness: a request that was built carries its intent and meets every price and quantity rule of the program. */
  lemma RequestMeetsRules(
    bridge: SettlementBridge, intent: SettlementIntent, store: Store, first: U64, index: nat, slot: U64)
    requires RequestFor(bridge, intent, store, first, index).Ok?
    ensures var request := RequestFor(bridge, intent, store, first, index).value;
            var a := request.args;
            && a.settlementId == first + index
            && a.fillPrice == intent.price && a.fillQuantity == intent.quantity
            && a.buyerOrder.side == Bid && a.sellerOrder.side == Ask
            && a.buyerOrder.market == bridge.marketConfig && a.sellerOrder.market == bridge.marketConfig
            && {a.buyerOrder.orderId, a.sellerOrder.orderId} == {intent.makerOrder, intent.takerOrder}
            && request.buyer == a.buyerOrder.trader && request.seller == a.sellerOrder.trader
            && (ValidateFillRules(a, slot).Ok? <==>
                  request.buyer != request.seller
                  && slot <= a.buyerOrder.expirySlot && slot <= a.sellerOrder.expirySlot)
  {
  }

  // The stored order belongs to this id and market.
  predicate Fits(bridge: SettlementBridge, id: OrderId, s: StoredOrder) {
    id < TWO_64 && s.order.orderId == id && s.order.market == bridge.marketConfig
  }

  // A stored bid of the intent's buyer and a stored ask of its seller, both allowing the fill.
  predicate Covers(intent: SettlementIntent, bid: StoredOrder, ask: StoredOrder) {
    && bid.order.side == Bid && bid.trader == intent.buyer
    && ask.order.side == Ask && ask.trader == intent.seller
    && ask.order.price <= intent.price <= bid.order.price
    && intent.quantity <= bid.order.quantity && intent.quantity <= ask.order.quantity
  }

  // Which of the two stored orders buys.
  predicate Coverable(intent: SettlementIntent, maker: StoredOrder, taker: StoredOrder) {
    Covers(intent, maker, taker) || Covers(intent, taker, maker)
  }

  /** A request is built exactly for an intent of this market, under an id in range, whose two orders are stored under
      their own ids for this market, one a bid of the buyer and one an ask of the seller that allow price and quantity;
      it carries the two orders as they were stored. */
  lemma RequestExactly(
    bridge: SettlementBridge, intent: SettlementIntent, store: Store, first: U64, index: nat)
    ensures var r := RequestFor(bridge, intent, store, first, index);
            && (r.Ok? <==>
                  && intent.market == bridge.marketId && first + index < TWO_64
                  && intent.makerOrder in store && Fits(bridge, intent.makerOrder, store[intent.makerOrder])
                  && intent.takerOrder in store && Fits(bridge, intent.takerOrder, store[intent.takerOrder])
                  && Coverable(intent, store[intent.makerOrder], store[intent.takerOrder]))
            && (r.Ok? ==>
                  exists bid, ask | {bid, ask} == {store[intent.makerOrder], store[intent.takerOrder]} ::
                    && Covers(intent, bid, ask)
                    && r.value == SettlementRequest(
                         bridge.authority, bid.order.trader, ask.order.trader, bridge.payer,
                         SignedFillArgs(first + index, intent.price, intent.quantity, bid.hash, ask.hash,
                                        bid.order, bid.signature, ask.order, ask.signature)))
  {
  }

  // What an error says about the intent that got it.
  predicate Explains(
    bridge: SettlementBridge, intent: SettlementIntent, store: Store, id: nat, e: BridgeError) {
    match e
    case MarketMismatch => intent.market != bridge.marketId
    case SettlementIdOverflow => id >= TWO_64
    case MissingSignedOrder(missing) => missing in {intent.makerOrder, intent.takerOrder} && missing !in store
    case OrderIdOutOfRange(far) => far in {intent.makerOrder, intent.takerOrder} && far >= TWO_64
    case SignedOrderMismatch =>
      exists i | i in {intent.makerOrder, intent.takerOrder} && i in store :: !Fits(bridge, i, store[i])
    case InvalidSignedOrderSides =>
      && intent.makerOrder in store && intent.takerOrder in store
      && store[intent.makerOrder].order.side == store[intent.takerOrder].order.side
    case FillOutsideSignedOrders =>
      && intent.makerOrder in store && intent.takerOrder in store
      && !Coverable(intent, store[intent.makerOrder], store[intent.takerOrder])
  }

  /** No error lies: what it complains about is really wrong with the intent or the stored orders. */
  lemma ErrorsAreTrue(bridge: SettlementBridge, intent: SettlementIntent, store: Store, first: U64, index: nat)
    requires RequestFor(bridge, intent, store, first, index).Err?
    ensures Explains(bridge, intent, store, first + index, RequestFor(bridge, intent, store, first, index).error)
  {
  }

  /** One request per intent, in order, numbered without gaps. */
  lemma {:induction false} BatchIsComplete(
    bridge: SettlementBridge, intents: seq<SettlementIntent>, store: Store, first: U64, n: nat)
    requires n <= |intents|
    ensures var r := BridgeFirst(bridge, intents, store, first, n);
            && (r.Ok? <==> forall i | 0 <= i < n :: RequestFor(bridge, intents[i], store, first, i).Ok?)
            && (r.Ok? ==> |r.value| == n
                          && forall i | 0 <= i < n ::
                               && Ok(r.value[i]) == RequestFor(bridge, intents[i], store, first, i)
                               && r.value[i].args.settlementId == first + i)
  {
    if n > 0 {
      BatchIsComplete(bridge, intents, store, first, n - 1);
      if RequestFor(bridge, intents[n - 1], store, first, n - 1).Ok? {
        RequestMeetsRules(bridge, intents[n - 1], store, first, n - 1, 0);
      }
    }
  }

  // The edge state: a store of signed orders, a queue of requests and the next settlement id.
  datatype Edge = Edge(store: Store, queue: seq<SettlementRequest>, nextId: U64)

  const NEW_EDGE := Edge(map[], [], 0)

  datatype EdgeOp =
    | StoreOrder(id: OrderId, order: StoredOrder)
    | AllocateIds(count: U64)
    | QueueRequests(requests: seq<SettlementRequest>)
    | DrainRequests

  datatype IdRange = IdRange(first: nat, count: nat)

  // What the callers saw: the id ranges handed out, and the requests put in and taken out.
  datatype EdgeTrace = EdgeTrace(
    edge: Edge, ranges: seq<IdRange>, queued: seq<SettlementRequest>, drained: seq<SettlementRequest>)

  // None for an empty allocation, an error when the counter would overflow.
  function Allocate(nextId: U64, count: U64): Result<Option<U64>, ()> {
    if count == 0 then Ok(None)
    else if nextId + count >= TWO_64 then Err(())
    else Ok(Some(nextId))
  }

  /** Nothing asked for, nothing handed out; otherwise the next id, or an error exactly when the ids do not last. */
  lemma AllocateExactly(nextId: U64, count: U64)
    ensures Allocate(nextId, count).Err? <==> count > 0 && nextId + count >= TWO_64
    ensures Allocate(nextId, count) == Ok(None) <==> count == 0
    ensures Allocate(nextId, count).Ok? && count > 0 ==> Allocate(nextId, count) == Ok(Some(nextId))
  {
  }

  function EdgeStep(t: EdgeTrace, op: EdgeOp): EdgeTrace {
    match op
    case StoreOrder(id, order) => t.(edge := t.edge.(store := t.edge.store[id := order]))
    case QueueRequests(requests) => t.(edge := t.edge.(queue := t.edge.queue + requests), queued := t.queued + requests)
    case DrainRequests => t.(edge := t.edge.(queue := []), drained := t.drained + t.edge.queue)
    case AllocateIds(count) =>
      match Allocate(t.edge.nextId, count)
      case Ok(Some(first)) => t.(edge := t.edge.(nextId := first + count), ranges := t.ranges + [IdRange(first, count)])
      case _ => t
  }

  function EdgeRun(ops: seq<EdgeOp>): EdgeTrace {
    if ops == [] then EdgeTrace(NEW_EDGE, [], [], [])
    else EdgeStep(EdgeRun(ops[..|ops| - 1]), ops[|ops| - 1])
  }

  // The ranges cover 0 up to `next` without a gap, and none is empty.
  predicate RangesTile(ranges: seq<IdRange>, next: nat) {
    if ranges == [] then next == 0
    else
      && ranges[0].first == 0
      && ranges[|ranges| - 1].first + ranges[|ranges| - 1].count == next
      && (forall i | 0 <= i < |ranges| :: ranges[i].count > 0)
      && (forall i | 0 <= i < |ranges| - 1 :: ranges[i].first + ranges[i].count == ranges[i + 1].first)
  }

  /** No queued request is lost, doubled or reordered. */
  lemma {:induction false} EdgeKeepsQueue(ops: seq<EdgeOp>)
    ensures EdgeRun(ops).drained + EdgeRun(ops).edge.queue == EdgeRun(ops).queued
  {
    if ops != [] {
      EdgeKeepsQueue(ops[..|ops| - 1]);
    }
  }

  predicate RangesApart(ranges: seq<IdRange>) {
    forall i, j | 0 <= i < j < |ranges| :: ranges[i].first + ranges[i].count <= ranges[j].first
  }

  lemma NextRange(ranges: seq<IdRange>, next: nat, count: nat)
    requires RangesTile(ranges, next) && RangesApart(ranges) && count > 0
    ensures RangesTile(ranges + [IdRange(next, count)], next + count)
    ensures RangesApart(ranges + [IdRange(next, count)])
  {
    var n := |ranges|;
    forall i | 0 <= i < n ensures ranges[i].first + ranges[i].count <= next {
      if i < n - 1 {
        assert ranges[i].first + ranges[i].count <= ranges[n - 1].first;
      }
    }
  }

  lemma StepKeepsRanges(t: EdgeTrace, op: EdgeOp)
    requires RangesTile(t.ranges, t.edge.nextId) && RangesApart(t.ranges)
    ensures RangesTile(EdgeStep(t, op).ranges, EdgeStep(t, op).edge.nextId)
    ensures RangesApart(EdgeStep(t, op).ranges)
  {
    var t' := EdgeStep(t, op);
    if op.AllocateIds? && op.count > 0 && t.edge.nextId + op.count < TWO_64 {
      NextRange(t.ranges, t.edge.nextId, op.count);
      assert t'.ranges == t.ranges + [IdRange(t.edge.nextId, op.count)];
    } else {
      assert t'.ranges == t.ranges && t'.edge.nextId == t.edge.nextId;
    }
  }

  /** No settlement id is handed out twice, and the ranges leave no gap. */
  lemma {:induction false} EdgeNeverRepeats(ops: seq<EdgeOp>)
    ensures RangesTile(EdgeRun(ops).ranges, EdgeRun(ops).edge.nextId)
    ensures RangesApart(EdgeRun(ops).ranges)
  {
    if ops != [] {
      EdgeNeverRepeats(ops[..|ops| - 1]);
      StepKeepsRanges(EdgeRun(ops[..|ops| - 1]), ops[|ops| - 1]);
    }
  }

  class SettlementEdgeState {
    var signedOrders: Store
    var queuedRequests: seq<SettlementRequest>
    var nextSettlementId: U64

    ghost function View(): Edge
      reads this
    {
      Edge(signedOrders, queuedRequests, nextSettlementId)
    }

    constructor ()
      ensures View() == NEW_EDGE
    {
      signedOrders, queuedRequests, nextSettlementId := map[], [], 0;
    }

    method StoreSignedOrder(id: OrderId, order: StoredOrder) returns (replaced: bool)
      modifies this`signedOrders
      ensures replaced <==> id in old(signedOrders)
      ensures View() == old(View()).(store := old(signedOrders)[id := order])
    {
      replaced := id in signedOrders;
      signedOrders := signedOrders[id := order];
    }

    method AllocateSettlementIds(count: U64) returns (r: Result<Option<U64>, ()>)
      modifies this`nextSettlementId
      ensures r == Allocate(old(nextSettlementId), count)
      ensures nextSettlementId == old(nextSettlementId) + if r.Ok? then count else 0
    {
      if count == 0 {
        return Ok(None);
      }
      var current := nextSettlementId;
      if current + count >= TWO_64 {
        return Err(());
      }
      nextSettlementId := current + count;
      r := Ok(Some(current));
    }

    method QueueSettlementRequests(requests: seq<SettlementRequest>)
      modifies this`queuedRequests
      ensures queuedRequests == old(queuedRequests) + requests
    {
      queuedRequests := queuedRequests + requests;
    }

    method DrainQueuedSettlementRequests() returns (requests: seq<SettlementRequest>)
      modifies this`queuedRequests
      ensures requests == old(queuedRequests) && queuedRequests == []
    {
      requests := queuedRequests;
      queuedRequests := [];
    }
  }
}
