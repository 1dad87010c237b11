/** Where quantities and money go: conservation of order quantity and solvency of every trader. */
module TradeLaws {
  import opened Types
  import opened Orders
  import opened OrderBook
  import opened Matching
  import opened MatchingLaws
  import opened ExchangeModel
  import opened ExchangeLaws
  import opened Sums
  import B = Balances

  // A fill together with the order that took it, which tells buyer from seller.
  datatype Trade = Trade(taker: Order, fill: Fill) {
    function OrderOn(side: Side): OrderId {
      if side == taker.side then fill.takerOrder else fill.makerOrder
    }

    function TraderOn(side: Side): TraderId {
      if side == taker.side then fill.takerTrader else fill.makerTrader
    }
  }

  function TradesOf(taker: Order, fills: seq<Fill>): seq<Trade> {
    seq(|fills|, i requires 0 <= i < |fills| => Trade(taker, fills[i]))
  }

  function TradesIn(events: seq<Event>): seq<Trade> {
    if events == [] then []
    else
      var before, last := TradesIn(events[..|events| - 1]), events[|events| - 1];
      if last.OrderPlaced? then before + TradesOf(last.order, last.fills) else before
  }

  lemma {:induction false} TradesInPush(events: seq<Event>, e: Event)
    ensures TradesIn(events + [e]) ==
            if e.OrderPlaced? then TradesIn(events) + TradesOf(e.order, e.fills) else TradesIn(events)
  {
    assert (events + [e])[..|events|] == events;
  }

  // Whose share is counted: everyone's, one trader's, or one order's.
  datatype Who = Everyone | Trader(trader: TraderId) | OrderNo(id: OrderId) {
    predicate Is(order: OrderId, owner: TraderId) {
      match this
      case Everyone => true
      case Trader(t) => t == owner
      case OrderNo(id) => id == order
    }
  }

  function QuantityResting(who: Who): Order -> nat {
    (o: Order) => if who.Is(o.id, o.trader) then o.remaining else 0
  }

  function CostResting(who: Who): Order -> nat {
    (o: Order) => if who.Is(o.id, o.trader) then o.price * o.remaining else 0
  }

  function QuantityFilled(side: Side, who: Who): Trade -> nat {
    (t: Trade) => if who.Is(t.OrderOn(side), t.TraderOn(side)) then t.fill.quantity else 0
  }

  function CostFilled(side: Side, who: Who): Trade -> nat {
    (t: Trade) => if who.Is(t.OrderOn(side), t.TraderOn(side)) then t.fill.price * t.fill.quantity else 0
  }

  predicate Counts(e: Event, side: Side, who: Who) {
    e.OrderPlaced? && e.order.side == side && who.Is(e.order.id, e.order.trader)
  }

  function QuantityPlaced(side: Side, who: Who): Event -> nat {
    (e: Event) => if Counts(e, side, who) then e.order.remaining else 0
  }

  function OriginalPlaced(side: Side, who: Who): Event -> nat {
    (e: Event) => if Counts(e, side, who) then e.order.original else 0
  }

  function CostPlaced(side: Side, who: Who): Event -> nat {
    (e: Event) => if Counts(e, side, who) then e.order.price * e.order.original else 0
  }

  lemma {:induction false} InsertSum(f: Order -> nat, side: Side, flat: seq<Order>, o: Order)
    ensures SumOf(f, FlatInsert(side, flat, o)) == SumOf(f, flat) + f(o)
  {
    if flat == [] || Better(side, o.price, flat[0].price) {
      SumCons(f, o, flat);
    } else {
      InsertSum(f, side, flat[1..], o);
      SumCons(f, flat[0], FlatInsert(side, flat[1..], o));
      SumCons(f, flat[0], flat[1..]);
      assert flat == [flat[0]] + flat[1..];
    }
  }

  // One greedy step: both orders give up the same quantity, and a used-up maker leaves the queue.
  function NextTaker(taker: Order, makers: seq<Order>): Order
    requires Matchable(taker, makers) && Trades(taker, makers)
  {
    ApplyFill(taker, MinRemaining(taker, makers[0])).value
  }

  function NextMakers(taker: Order, makers: seq<Order>): (makers': seq<Order>)
    requires Matchable(taker, makers) && Trades(taker, makers)
    ensures Matchable(NextTaker(taker, makers), makers')
  {
    var maker' := ApplyFill(makers[0], MinRemaining(taker, makers[0])).value;
    if maker'.IsTerminal() then makers[1..] else [maker'] + makers[1..]
  }

  function FirstTrade(order: Order, taker: Order, makers: seq<Order>): Trade
    requires Matchable(taker, makers) && Trades(taker, makers)
  {
    Trade(order, FillBetween(makers[0], taker, MinRemaining(taker, makers[0])))
  }

  lemma {:induction false} GreedyStep(order: Order, taker: Order, makers: seq<Order>)
    requires Matchable(taker, makers) && SameTerms(order, taker) && Trades(taker, makers)
    ensures var rest := Greedy(NextTaker(taker, makers), NextMakers(taker, makers));
            var out := Greedy(taker, makers);
            && out.taker == rest.taker && out.makers == rest.makers
            && TradesOf(order, out.fills) == [FirstTrade(order, taker, makers)] + TradesOf(order, rest.fills)
  {
  }

  lemma {:induction false} FirstQuantities(order: Order, taker: Order, makers: seq<Order>, who: Who)
    requires Matchable(taker, makers) && SameTerms(order, taker) && Trades(taker, makers)
    ensures var trade := FirstTrade(order, taker, makers);
            && QuantityFilled(taker.side, who)(trade) + QuantityResting(who)(NextTaker(taker, makers))
               == QuantityResting(who)(taker)
            && QuantityFilled(taker.side.Opposite(), who)(trade)
               + SumOf(QuantityResting(who), NextMakers(taker, makers)) == SumOf(QuantityResting(who), makers)
  {
    var maker' := ApplyFill(makers[0], MinRemaining(taker, makers[0])).value;
    assert makers == [makers[0]] + makers[1..];
    SumCons(QuantityResting(who), makers[0], makers[1..]);
    SumCons(QuantityResting(who), maker', makers[1..]);
  }

  lemma Distribute(price: nat, quantity: nat, left: nat)
    ensures price * (quantity + left) == price * quantity + price * left
  {
  }

  lemma {:induction false} FirstMakerCost(order: Order, taker: Order, makers: seq<Order>, who: Who)
    requires Matchable(taker, makers) && SameTerms(order, taker) && Trades(taker, makers)
    ensures CostFilled(taker.side.Opposite(), who)(FirstTrade(order, taker, makers))
            + SumOf(CostResting(who), NextMakers(taker, makers)) == SumOf(CostResting(who), makers)
  {
    var quantity := MinRemaining(taker, makers[0]);
    var maker' := ApplyFill(makers[0], quantity).value;
    assert makers == [makers[0]] + makers[1..];
    SumCons(CostResting(who), makers[0], makers[1..]);
    SumCons(CostResting(who), maker', makers[1..]);
    Distribute(maker'.price, quantity, maker'.remaining);
  }

  lemma FirstBuyerCost(order: Order, taker: Order, makers: seq<Order>, who: Who)
    requires Matchable(taker, makers) && SameTerms(order, taker) && Trades(taker, makers)
    requires taker.side == Bid
    ensures CostFilled(Bid, who)(FirstTrade(order, taker, makers)) + CostResting(who)(NextTaker(taker, makers))
            <= CostResting(who)(taker)
  {
    var quantity := MinRemaining(taker, makers[0]);
    Distribute(taker.price, quantity, NextTaker(taker, makers).remaining);
    B.ProductBound(makers[0].price, quantity, taker.price);
  }

  /** A whole match, counted for anyone: what was filled is what stopped resting, on both sides. */
  lemma {:induction false} MatchQuantities(order: Order, taker: Order, makers: seq<Order>, who: Who)
    requires Matchable(taker, makers) && SameTerms(order, taker)
    ensures var out := Greedy(taker, makers);
            var trades := TradesOf(order, out.fills);
            && SumOf(QuantityFilled(taker.side, who), trades) + QuantityResting(who)(out.taker)
               == QuantityResting(who)(taker)
            && SumOf(QuantityFilled(taker.side.Opposite(), who), trades) + SumOf(QuantityResting(who), out.makers)
               == SumOf(QuantityResting(who), makers)
    decreases taker.remaining
  {
    if Trades(taker, makers) {
      var taker', makers' := NextTaker(taker, makers), NextMakers(taker, makers);
      var first, others := FirstTrade(order, taker, makers), TradesOf(order, Greedy(taker', makers').fills);
      GreedyStep(order, taker, makers);
      FirstQuantities(order, taker, makers, who);
      MatchQuantities(order, taker', makers', who);
      SumCons(QuantityFilled(Bid, who), first, others);
      SumCons(QuantityFilled(Ask, who), first, others);
    }
  }

  /** Makers trade at their own price, and a buying taker never pays more than its limit allows. */
  lemma {:induction false} MatchCosts(order: Order, taker: Order, makers: seq<Order>, who: Who)
    requires Matchable(taker, makers) && SameTerms(order, taker)
    ensures var out := Greedy(taker, makers);
            var trades := TradesOf(order, out.fills);
            && SumOf(CostFilled(taker.side.Opposite(), who), trades) + SumOf(CostResting(who), out.makers)
               == SumOf(CostResting(who), makers)
            && (taker.side == Bid ==>
                  SumOf(CostFilled(Bid, who), trades) + CostResting(who)(out.taker) <= CostResting(who)(taker))
    decreases taker.remaining
  {
    if Trades(taker, makers) {
      var taker', makers' := NextTaker(taker, makers), NextMakers(taker, makers);
      var first, others := FirstTrade(order, taker, makers), TradesOf(order, Greedy(taker', makers').fills);
      GreedyStep(order, taker, makers);
      FirstMakerCost(order, taker, makers, who);
      if taker.side == Bid {
        FirstBuyerCost(order, taker, makers, who);
      }
      MatchCosts(order, taker', makers', who);
      SumCons(CostFilled(Bid, who), first, others);
      SumCons(CostFilled(Ask, who), first, others);
    }
  }

  // Every unit placed on a side is still resting there or has been filled.
  ghost predicate Conserves(app: App, side: Side, who: Who) {
    SumOf(QuantityPlaced(side, who), app.events)
      == SumOf(QuantityResting(who), app.book.Own(side)) + SumOf(QuantityFilled(side, who), TradesIn(app.events))
  }

  // What buyers owe for past fills, and still could owe for resting bids, is covered by what their bids reserved.
  ghost predicate BuyersCovered(app: App, who: Who) {
    SumOf(CostFilled(Bid, who), TradesIn(app.events)) + SumOf(CostResting(who), app.book.bids)
      <= SumOf(CostPlaced(Bid, who), app.events)
  }

  lemma PlaceQuantities(book: Book, order: Order, side: Side, who: Who)
    requires book.Ordered() && !order.IsTerminal()
    ensures var (fills, book') := Place(book, order).value;
            var added := if order.side == side && who.Is(order.id, order.trader) then order.remaining else 0;
            SumOf(QuantityResting(who), book'.Own(side)) + SumOf(QuantityFilled(side, who), TradesOf(order, fills))
              == SumOf(QuantityResting(who), book.Own(side)) + added
  {
    var out := Greedy(order, book.Makers(order.side));
    MatchQuantities(order, order, book.Makers(order.side), who);
    InsertSum(QuantityResting(who), order.side, book.Own(order.side), out.taker);
  }

  lemma PlaceCosts(book: Book, order: Order, who: Who)
    requires book.Ordered() && !order.IsTerminal()
    ensures var (fills, book') := Place(book, order).value;
            var counts := order.side == Bid && who.Is(order.id, order.trader);
            var added := if counts then order.price * order.original else 0;
            SumOf(CostResting(who), book'.bids) + SumOf(CostFilled(Bid, who), TradesOf(order, fills))
              <= SumOf(CostResting(who), book.bids) + added
  {
    var out := Greedy(order, book.Makers(order.side));
    MatchCosts(order, order, book.Makers(order.side), who);
    InsertSum(CostResting(who), order.side, book.Own(order.side), out.taker);
    B.ProductBound(order.remaining, order.price, order.original);
  }

  lemma ApplyKeepsConserves(app: App, e: Event, side: Side, who: Who)
    requires app.book.Ordered() && ApplyEvent(app, e).0.Ok?
    requires Conserves(app, side, who)
    ensures Conserves(ApplyEvent(app, e).1, side, who)
  {
    EventApplied(app, e);
    SumPush(QuantityPlaced(side, who), app.events, e);
    TradesInPush(app.events, e);
    if e.OrderPlaced? {
      PlaceQuantities(app.book, e.order, side, who);
      SumConcat(QuantityFilled(side, who), TradesIn(app.events), TradesOf(e.order, e.fills));
    }
  }

  lemma ApplyKeepsCovered(app: App, e: Event, who: Who)
    requires app.book.Ordered() && ApplyEvent(app, e).0.Ok?
    requires BuyersCovered(app, who)
    ensures BuyersCovered(ApplyEvent(app, e).1, who)
  {
    EventApplied(app, e);
    SumPush(CostPlaced(Bid, who), app.events, e);
    TradesInPush(app.events, e);
    if e.OrderPlaced? {
      PlaceCosts(app.book, e.order, who);
      SumConcat(CostFilled(Bid, who), TradesIn(app.events), TradesOf(e.order, e.fills));
    }
  }

  // The terms of an order that came in through some event of the log.
  ghost predicate WasPlaced(events: seq<Event>, o: Order) {
    exists e :: e in events && e.OrderPlaced? && SameTerms(e.order, o)
  }

  // The fill is between the taker and this maker, at the maker's price, and inside both limits.
  predicate MadeBy(t: Trade, maker: Order) {
    && maker.side == t.taker.side.Opposite()
    && Crosses(t.taker, maker)
    && t.fill == FillBetween(maker, t.taker, t.fill.quantity)
  }

  ghost predicate HasParties(events: seq<Event>, t: Trade) {
    && WasPlaced(events, t.taker)
    && exists maker :: MadeBy(t, maker) && WasPlaced(events, maker)
  }

  ghost predicate Traceable(app: App) {
    && (forall e | e in app.events && e.OrderPlaced? :: B.ReservationFor(e.order, app.market).Ok?)
    && (forall o | o in app.book.bids || o in app.book.asks :: WasPlaced(app.events, o))
    && (forall t | t in TradesIn(app.events) :: HasParties(app.events, t))
  }

  lemma PlacedBefore(events: seq<Event>, e: Event, o: Order, o': Order)
    requires WasPlaced(events, o) && SameTerms(o, o')
    ensures WasPlaced(events + [e], o')
  {
    var x :| x in events && x.OrderPlaced? && SameTerms(x.order, o);
    assert x in events + [e] && SameTerms(x.order, o');
  }

  lemma PartiesBefore(events: seq<Event>, e: Event, t: Trade)
    requires HasParties(events, t)
    ensures HasParties(events + [e], t)
  {
    var maker :| MadeBy(t, maker) && WasPlaced(events, maker);
    PlacedBefore(events, e, t.taker, t.taker);
    PlacedBefore(events, e, maker, maker);
  }

  // Where an order on a side after a placement comes from: a maker of that side, an order that rested, or the taker.
  ghost predicate ComesFrom(book: Book, order: Order, o: Order) {
    || (exists m :: m in book.Makers(order.side) && SameTerms(m, o))
    || o in book.Own(order.side)
    || SameTerms(order, o)
  }

  lemma RestAfterPlace(book: Book, order: Order)
    requires book.Ordered() && Place(book, order).Ok?
    ensures var book' := Place(book, order).value.1;
            forall o | o in book'.bids || o in book'.asks :: ComesFrom(book, order, o)
  {
    var own, makers := book.Own(order.side), book.Makers(order.side);
    var out := Greedy(order, makers);
    GreedyIsPriceTime(order, makers);
    LeftInOrder(order.side.Opposite(), order, makers, out.fills, out.makers);
    InsertMembers(order.side, own, out.taker);
  }

  lemma NewRestTraceable(app: App, e: Event)
    requires app.book.Ordered() && Traceable(app)
    requires ApplyEvent(app, e).0.Ok? && e.OrderPlaced?
    ensures var app' := ApplyEvent(app, e).1;
            forall o | o in app'.book.bids || o in app'.book.asks :: WasPlaced(app'.events, o)
  {
    EventApplied(app, e);
    RestAfterPlace(app.book, e.order);
    var app' := ApplyEvent(app, e).1;
    forall o | o in app'.book.bids || o in app'.book.asks ensures WasPlaced(app'.events, o) {
      if SameTerms(e.order, o) {
        assert e in app'.events;
      } else if o in app.book.Own(e.order.side) {
        PlacedBefore(app.events, e, o, o);
      } else {
        var m :| m in app.book.Makers(e.order.side) && SameTerms(m, o);
        PlacedBefore(app.events, e, m, o);
      }
    }
  }

  lemma NewTradesTraceable(app: App, e: Event)
    requires app.book.Ordered() && Traceable(app)
    requires ApplyEvent(app, e).0.Ok? && e.OrderPlaced?
    ensures forall t | t in TradesOf(e.order, e.fills) :: HasParties(app.events + [e], t)
  {
    EventApplied(app, e);
    var makers := app.book.Makers(e.order.side);
    GreedyIsPriceTime(e.order, makers);
    forall t | t in TradesOf(e.order, e.fills) ensures HasParties(app.events + [e], t) {
      var k :| 0 <= k < |e.fills| && t == Trade(e.order, e.fills[k]);
      assert Hits(e.order, makers[k], e.fills[k]) && makers[k] in makers;
      assert MadeBy(t, makers[k]);
      PlacedBefore(app.events, e, makers[k], makers[k]);
      assert e in app.events + [e] && SameTerms(e.order, t.taker);
    }
  }

  lemma ApplyKeepsTraceable(app: App, e: Event)
    requires app.book.Ordered() && Traceable(app) && ApplyEvent(app, e).0.Ok?
    ensures Traceable(ApplyEvent(app, e).1)
  {
    EventApplied(app, e);
    TradesInPush(app.events, e);
    var app' := ApplyEvent(app, e).1;
    if e.OrderPlaced? {
      NewRestTraceable(app, e);
      NewTradesTraceable(app, e);
    } else {
      forall o | o in app'.book.bids || o in app'.book.asks ensures WasPlaced(app'.events, o) {
        PlacedBefore(app.events, e, o, o);
      }
    }
    forall t | t in TradesIn(app'.events) ensures HasParties(app'.events, t) {
      if t in TradesIn(app.events) {
        PartiesBefore(app.events, e, t);
      }
    }
  }
}
