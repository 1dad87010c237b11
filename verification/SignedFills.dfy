/** The exchange's own check of a fill between two signed orders, and its agreement with the settlement program. */
module SignedFills {
  import opened Types
  import opened Orders
  import opened Preimages
  import opened SettlementModel
  import opened SettlementTypes
  import opened ExchangeModel
  import opened ExchangeLaws
  import opened TradeLaws
  import opened Settleability
  import B = Balances

  datatype SignedFillError =
    | SignedOrderWrongSide
    | SignedOrderMarketMismatch
    | SignedOrderSelfTrade
    | SignedOrderExpired
    | SignedOrderPricesDoNotCross
    | FillPriceOutsideSignedOrder
    | FillQuantityExceedsSignedOrder

  datatype SignedFill = SignedFill(
    buyerHash: Digest,
    sellerHash: Digest,
    buyer: TraderId,
    seller: TraderId,
    market: MarketId,
    price: Price,
    quantity: Quantity,
    quote: nat)

  // Signatures are carried along but not looked at here.
  function ValidateSignedFill(
    sha256: seq<Byte> -> Digest, bid: OrderIntent, ask: OrderIntent, price: Price, quantity: Quantity, slot: U64)
    : Result<SignedFill, SignedFillError>
  {
    if bid.side != Bid || ask.side != Ask then Err(SignedOrderWrongSide)
    else if bid.market != ask.market then Err(SignedOrderMarketMismatch)
    else if bid.trader == ask.trader then Err(SignedOrderSelfTrade)
    else if slot > bid.expirySlot || slot > ask.expirySlot then Err(SignedFillError.SignedOrderExpired)
    else if bid.price < ask.price then Err(SignedFillError.SignedOrderPricesDoNotCross)
    else if price > bid.price || price < ask.price then Err(SignedFillError.FillPriceOutsideSignedOrder)
    else if quantity > bid.quantity || quantity > ask.quantity then Err(SignedFillError.FillQuantityExceedsSignedOrder)
    else Ok(SignedFill(sha256(IntentPreimage(bid)), sha256(IntentPreimage(ask)), bid.trader, ask.trader, bid.market,
                       price, quantity, B.QuoteCost(price, quantity)))
  }

  // A bid and an ask of one market and two traders, neither expired, that both allow the fill.
  predicate Allows(bid: OrderIntent, ask: OrderIntent, price: Price, quantity: Quantity, slot: U64) {
    && bid.side == Bid && ask.side == Ask && bid.market == ask.market && bid.trader != ask.trader
    && slot <= bid.expirySlot && slot <= ask.expirySlot
    && ask.price <= price <= bid.price && quantity <= bid.quantity && quantity <= ask.quantity
  }

  /** The check accepts exactly the fills both orders allow, and its refusals are true. */
  lemma AcceptsExactly(
    sha256: seq<Byte> -> Digest, bid: OrderIntent, ask: OrderIntent, price: Price, quantity: Quantity, slot: U64)
    ensures var r := ValidateSignedFill(sha256, bid, ask, price, quantity, slot);
            && (r.Ok? <==> Allows(bid, ask, price, quantity, slot))
            && (r.Err? ==>
                  match r.error
                  case SignedOrderWrongSide => !(bid.side == Bid && ask.side == Ask)
                  case SignedOrderMarketMismatch => bid.market != ask.market
                  case SignedOrderSelfTrade => bid.trader == ask.trader
                  case SignedOrderExpired => !(slot <= bid.expirySlot && slot <= ask.expirySlot)
                  case SignedOrderPricesDoNotCross => bid.price < ask.price
                  case FillPriceOutsideSignedOrder => !(ask.price <= price <= bid.price)
                  case FillQuantityExceedsSignedOrder => !(quantity <= bid.quantity && quantity <= ask.quantity))
  {
  }

  // The same order as the settlement program sees it.
  predicate SameOrder(i: OrderIntent, o: SignedOrderPayload, key: TraderId -> Pubkey, market: MarketId -> Pubkey) {
    && o.orderId == i.orderId && o.market == market(i.market) && o.trader == key(i.trader) && o.side == i.side
    && o.price == i.price && o.quantity == i.quantity && o.nonce == i.nonce && o.expirySlot == i.expirySlot
  }

  /** A bid and an ask of one market are accepted off-chain exactly when the program's rules accept them, and then the
      program charges the same quote amount, or overflows exactly when that amount leaves the 64-bit range. */
  lemma RulesAgree(
    sha256: seq<Byte> -> Digest, bid: OrderIntent, ask: OrderIntent, a: SignedFillArgs, slot: U64,
    key: TraderId -> Pubkey, market: MarketId -> Pubkey)
    requires SameOrder(bid, a.buyerOrder, key, market) && SameOrder(ask, a.sellerOrder, key, market)
    requires forall s, t :: key(s) == key(t) ==> s == t
    requires bid.side == Bid && ask.side == Ask && bid.market == ask.market
    requires a.fillPrice > 0 && a.fillQuantity > 0
    ensures var r := ValidateSignedFill(sha256, bid, ask, a.fillPrice, a.fillQuantity, slot);
            && (r.Ok? <==> ValidateFillRules(a, slot).Ok?)
            && (r.Ok? ==> QuoteAmount(a.fillPrice, a.fillQuantity)
                          == if r.value.quote < TWO_64 then Ok(r.value.quote) else Err(SettlementBalanceOverflow))
  {
    assert key(bid.trader) == key(ask.trader) <==> bid.trader == ask.trader;
  }

  // What a trader signs for an order it places.
  predicate SignsOrder(i: OrderIntent, o: Order) {
    && i.orderId == o.id && i.trader == o.trader && i.market == o.market && i.side == o.side
    && i.price == o.price && i.quantity == o.original
  }

  /** Whatever the engine trades, the check accepts: signed orders of the two parties, not expired, on one market. */
  lemma {:induction false} EngineFillsValidate(
    sha256: seq<Byte> -> Digest, market: Market, commands: seq<Command>, t: Trade, slot: U64)
    returns (buy: Order, sell: Order)
    requires DistinctOrders(Run(market, commands).events) && t in TradesIn(Run(market, commands).events)
    requires t.TraderOn(Bid) != t.TraderOn(Ask)
    ensures Parties(Run(market, commands).events, t, buy, sell)
    ensures forall bid, ask |
              && SignsOrder(bid, buy) && SignsOrder(ask, sell) && buy.market == sell.market
              && slot <= bid.expirySlot && slot <= ask.expirySlot ::
              ValidateSignedFill(sha256, bid, ask, t.fill.price, t.fill.quantity, slot)
              == Ok(SignedFill(sha256(IntentPreimage(bid)), sha256(IntentPreimage(ask)),
                               t.TraderOn(Bid), t.TraderOn(Ask), buy.market,
                               t.fill.price, t.fill.quantity, t.fill.price * t.fill.quantity))
  {
    var app := Run(market, commands);
    buy, sell := FindParties(app, t);
    assert [] + [t] == [t];
    RoomLeft(app, [], t, buy);
    RoomLeft(app, [], t, sell);
  }
}
