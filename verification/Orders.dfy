/** The order record and its state machine. */
module Orders {
  import opened Types

  datatype OrderStatus = Open | PartiallyFilled | Filled | Cancelled

  datatype OrderRecord = OrderRecord(
    id: OrderId,
    trader: TraderId,
    market: MarketId,
    side: Side,
    price: Price,
    original: Quantity,
    remaining: U64,
    sequence: OrderSequence,
    status: OrderStatus)
  {
    predicate IsTerminal() {
      status.Filled? || status.Cancelled?
    }

    // What the constructor establishes and every update of an order keeps.
    predicate Consistent() {
      && remaining <= original
      && (status.Open? ==> remaining == original)
      && (status.PartiallyFilled? ==> 0 < remaining < original)
      && (status.Filled? <==> remaining == 0)
    }
  }

  // The fields of an order are private in the source, so only consistent records exist.
  type Order = o: OrderRecord | o.Consistent()
    witness OrderRecord(1, 1, 1, Bid, 1, 1, 1, 1, Open)

  function NewOrder(
    id: OrderId, trader: TraderId, market: MarketId, side: Side,
    price: Price, quantity: Quantity, sequence: OrderSequence): (o: Order)
    ensures !o.IsTerminal() && o.remaining == o.original == quantity
    ensures o.id == id && o.trader == trader && o.market == market && o.side == side
    ensures o.price == price && o.sequence == sequence
  {
    OrderRecord(id, trader, market, side, price, quantity, quantity, sequence, Open)
  }

  // Everything about an order that filling and cancelling leave alone.
  predicate SameTerms(a: Order, b: Order) {
    && a.id == b.id && a.trader == b.trader && a.market == b.market && a.side == b.side
    && a.price == b.price && a.original == b.original && a.sequence == b.sequence
  }

  function ApplyFill(o: Order, fill: Quantity): (r: Result<Order, DomainError>)
    ensures r.Ok? <==> !o.IsTerminal() && fill <= o.remaining
    ensures r.Ok? ==> SameTerms(o, r.value) && o.remaining == r.value.remaining + fill
    ensures r.Ok? ==> (r.value.IsTerminal() <==> fill == o.remaining)
    ensures r.Err? ==> r.error == if o.IsTerminal() then OrderAlreadyTerminal else FillExceedsRemainingQuantity
  {
    if o.IsTerminal() then Err(OrderAlreadyTerminal)
    else if fill > o.remaining then Err(FillExceedsRemainingQuantity)
    else
      var updated := o.remaining - fill;
      Ok(o.(remaining := updated, status := if updated == 0 then Filled else PartiallyFilled))
  }

  function CancelOrder(o: Order): (r: Result<Order, DomainError>)
    ensures r.Ok? <==> !o.IsTerminal()
    ensures r.Ok? ==> SameTerms(o, r.value) && r.value.remaining == o.remaining > 0 && r.value.IsTerminal()
    ensures r.Err? ==> r.error == OrderAlreadyTerminal
  {
    if o.IsTerminal() then Err(OrderAlreadyTerminal) else Ok(o.(status := Cancelled))
  }
}
