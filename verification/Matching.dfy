/** Price-time matching: the greedy match over flat sides, and the engine that runs it on price levels. */
module Matching {
  import opened Types
  import opened Orders
  import opened OrderBook

  datatype Fill = Fill(
    makerOrder: OrderId,
    takerOrder: OrderId,
    makerTrader: TraderId,
    takerTrader: TraderId,
    price: Price,
    quantity: Quantity)

  function FillBetween(maker: Order, taker: Order, quantity: Quantity): Fill {
    Fill(maker.id, taker.id, maker.trader, taker.trader, maker.price, quantity)
  }

  predicate Crosses(taker: Order, maker: Order) {
    if taker.side == Bid then taker.price >= maker.price else taker.price <= maker.price
  }

  predicate CrossesBest(taker: Order, best: Option<Order>) {
    best.Some? && Crosses(taker, best.value)
  }

  function MinRemaining(a: Order, b: Order): (q: Quantity)
    requires a.remaining > 0 && b.remaining > 0
    ensures q <= a.remaining && q <= b.remaining && (q == a.remaining || q == b.remaining)
  {
    if a.remaining <= b.remaining then a.remaining else b.remaining
  }

  // What a match leaves: the taker, the makers still resting, and the fills in order.
  datatype Outcome = Outcome(taker: Order, makers: seq<Order>, fills: seq<Fill>)

  ghost predicate Matchable(taker: Order, makers: seq<Order>) {
    && !taker.status.Cancelled?
    && forall m | m in makers :: m.side == taker.side.Opposite() && !m.IsTerminal()
  }

  // The greedy match: trade with the head of the queue while it crosses.
  function Greedy(taker: Order, makers: seq<Order>): (out: Outcome)
    requires Matchable(taker, makers)
    ensures Matchable(out.taker, out.makers) && SameTerms(taker, out.taker)
    decreases taker.remaining
  {
    if taker.remaining == 0 || makers == [] || !Crosses(taker, makers[0]) then
      Outcome(taker, makers, [])
    else
      var quantity := MinRemaining(taker, makers[0]);
      var maker' := ApplyFill(makers[0], quantity).value;
      var taker' := ApplyFill(taker, quantity).value;
      var out := Greedy(taker', if maker'.IsTerminal() then makers[1..] else [maker'] + makers[1..]);
      out.(fills := [FillBetween(makers[0], taker, quantity)] + out.fills)
  }

  datatype Book = Book(bids: seq<Order>, asks: seq<Order>) {
    function Makers(taker: Side): seq<Order> {
      if taker == Bid then asks else bids
    }

    function Own(side: Side): seq<Order> {
      if side == Bid then bids else asks
    }

    ghost predicate Ordered() {
      && Sorted(Bid, bids) && Resting(Bid, bids)
      && Sorted(Ask, asks) && Resting(Ask, asks)
    }

    ghost predicate Uncrossed() {
      forall b, a | b in bids && a in asks :: b.price < a.price
    }

    ghost predicate Good() {
      Ordered() && Uncrossed()
    }
  }

  function WithSides(side: Side, own: seq<Order>, makers: seq<Order>): Book {
    if side == Bid then Book(own, makers) else Book(makers, own)
  }

  function Place(book: Book, order: Order): Result<(seq<Fill>, Book), DomainError>
    requires book.Ordered()
  {
    if order.IsTerminal() then Err(OrderAlreadyTerminal)
    else
      var out := Greedy(order, book.Makers(order.side));
      var own := book.Own(order.side);
      Ok((out.fills,
          WithSides(order.side,
                    if out.taker.IsTerminal() then own else FlatInsert(order.side, own, out.taker),
                    out.makers)))
  }

  // The match of `order` that ends in `whole` has made these fills and goes on with this taker and queue.
  ghost predicate GoesOn(order: Order, whole: Outcome, taker: Order, makers: seq<Order>, fills: seq<Fill>) {
    && Matchable(taker, makers) && SameTerms(order, taker)
    && var rest := Greedy(taker, makers);
       whole == rest.(fills := fills + rest.fills)
  }

  lemma {:induction false} GoesOnAfter(
    order: Order, whole: Outcome, taker: Order, makers: seq<Order>, fills: seq<Fill>,
    taker': Order, makers': seq<Order>, fill: Fill)
    requires GoesOn(order, whole, taker, makers, fills)
    requires Matchable(taker', makers') && SameTerms(taker, taker')
    requires var rest := Greedy(taker', makers'); Greedy(taker, makers) == rest.(fills := [fill] + rest.fills)
    ensures GoesOn(order, whole, taker', makers', fills + [fill])
  {
    var rest := Greedy(taker', makers');
    assert fills + ([fill] + rest.fills) == fills + [fill] + rest.fills;
  }

  // A match that has come to its end, seen as a placement.
  lemma {:induction false} PlacedBy(book: Book, order: Order, taker: Order, makers: seq<Order>, fills: seq<Fill>)
    requires book.Ordered() && !order.IsTerminal()
    requires taker.remaining == 0 || makers == [] || !Crosses(taker, makers[0])
    requires GoesOn(order, Greedy(order, book.Makers(order.side)), taker, makers, fills)
    ensures var own := book.Own(order.side);
            var own' := if taker.IsTerminal() then own else FlatInsert(order.side, own, taker);
            Place(book, order) == Ok((fills, WithSides(order.side, own', makers)))
  {
    assert fills + [] == fills;
  }

  class MatchingEngine {
    const bids: OrderBookSide
    const asks: OrderBookSide

    ghost predicate Valid()
      reads bids, asks
    {
      && bids != asks
      && bids.side == Bid && asks.side == Ask
      && bids.Valid() && asks.Valid()
    }

    ghost function View(): (b: Book)
      reads bids, asks
      requires Valid()
      ensures b.Ordered()
    {
      Book(bids.flat, asks.flat)
    }

    constructor ()
      ensures Valid() && fresh(bids) && fresh(asks)
      ensures View() == Book([], [])
    {
      bids := new OrderBookSide(Bid);
      asks := new OrderBookSide(Ask);
    }

    constructor Clone(that: MatchingEngine)
      requires that.Valid()
      ensures Valid() && fresh(bids) && fresh(asks)
      ensures View() == that.View()
    {
      bids := new OrderBookSide.Clone(that.bids);
      asks := new OrderBookSide.Clone(that.asks);
    }

    method PlaceOrder(order: Order) returns (r: Result<seq<Fill>, DomainError>)
      requires Valid()
      modifies bids, asks
      ensures Valid()
      ensures match Place(old(View()), order)
              case Err(e) => r == Err(e) && View() == old(View())
              case Ok(placed) => r == Ok(placed.0) && View() == placed.1
    {
      if order.IsTerminal() {
        return Err(OrderAlreadyTerminal);
      }
      match order.side
      case Bid => var fills := MatchBid(order); r := Ok(fills);
      case Ask => var fills := MatchAsk(order); r := Ok(fills);
    }

    // One round of the loop both sides run. The error exits of the source are not reachable on a valid book:
    // a crossing best order can be popped, both orders can take the smaller remaining quantity, and the maker
    // goes back to its own side.
    static method TradeWithBest(makers: OrderBookSide, taker: Order) returns (taker': Order, fill: Fill)
      requires makers.Valid() && makers.side == taker.side.Opposite()
      requires taker.remaining != 0 && Matchable(taker, makers.flat) && CrossesBest(taker, makers.BestOrder())
      modifies makers
      ensures makers.Valid() && Matchable(taker', makers.flat) && SameTerms(taker, taker')
      ensures taker'.remaining < taker.remaining
      ensures var rest := Greedy(taker', makers.flat);
              Greedy(taker, old(makers.flat)) == rest.(fills := [fill] + rest.fills)
    {
      ghost var queue := makers.flat;
      var popped := makers.PopBestOrder();
      var maker := popped.value;
      var quantity := MinRemaining(taker, maker);
      fill := FillBetween(maker, taker, quantity);
      maker := ApplyFill(maker, quantity).value;
      taker' := ApplyFill(taker, quantity).value;
      SortedTail(makers.side, queue);
      if !maker.IsTerminal() {
        var _ := makers.ReinsertFront(maker);
        assert makers.flat == [maker] + queue[1..];
      }
    }

    method MatchBid(order: Order) returns (fills: seq<Fill>)
      requires Valid() && order.side == Bid && !order.IsTerminal()
      modifies bids, asks
      ensures Valid()
      ensures Place(old(View()), order) == Ok((fills, View()))
    {
      var taker := order;
      fills := [];
      ghost var whole := Greedy(order, asks.flat);
      assert [] + whole.fills == whole.fills;
      while taker.remaining != 0 && CrossesBest(taker, asks.BestOrder())
        invariant Valid() && bids.flat == old(bids.flat)
        invariant GoesOn(order, whole, taker, asks.flat, fills)
        decreases taker.remaining
      {
        ghost var before, queue := taker, asks.flat;
        var fill;
        taker, fill := TradeWithBest(asks, taker);
        GoesOnAfter(order, whole, before, queue, fills, taker, asks.flat, fill);
        fills := fills + [fill];
      }
      PlacedBy(old(View()), order, taker, asks.flat, fills);
      if !taker.IsTerminal() {
        var _ := bids.Insert(taker);
      }
    }

    method MatchAsk(order: Order) returns (fills: seq<Fill>)
      requires Valid() && order.side == Ask && !order.IsTerminal()
      modifies bids, asks
      ensures Valid()
      ensures Place(old(View()), order) == Ok((fills, View()))
    {
      var taker := order;
      fills := [];
      ghost var whole := Greedy(order, bids.flat);
      assert [] + whole.fills == whole.fills;
      while taker.remaining != 0 && CrossesBest(taker, bids.BestOrder())
        invariant Valid() && asks.flat == old(asks.flat)
        invariant GoesOn(order, whole, taker, bids.flat, fills)
        decreases taker.remaining
      {
        ghost var before, queue := taker, bids.flat;
        var fill;
        taker, fill := TradeWithBest(bids, taker);
        GoesOnAfter(order, whole, before, queue, fills, taker, bids.flat, fill);
        fills := fills + [fill];
      }
      PlacedBy(old(View()), order, taker, bids.flat, fills);
      if !taker.IsTerminal() {
        var _ := asks.Insert(taker);
      }
    }
  }
}
