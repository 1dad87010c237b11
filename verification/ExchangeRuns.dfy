/** The main results about the exchange: what holds after any sequence of commands, accepted or refused. */
module ExchangeRuns {
  import opened Types
  import opened Orders
  import opened Matching
  import opened MatchingLaws
  import opened ExchangeModel
  import opened ExchangeLaws
  import opened TradeLaws
  import opened Sums
  import B = Balances

  ghost predicate Sound(app: App) {
    && app.book.Good()
    && Replays(app)
    && CommandsRecorded(app)
    && Traceable(app)
    && (forall t, a :: LedgerHolds(app, t, a))
    && (forall side, who :: Conserves(app, side, who))
    && (forall who :: BuyersCovered(app, who))
  }

  lemma NewIsSound(market: Market)
    ensures Sound(NewApp(market))
  {
  }

  lemma ApplyKeepsSound(app: App, e: Event)
    requires Sound(app) && ApplyEvent(app, e).0.Ok?
    ensures Sound(ApplyEvent(app, e).1)
  {
    EventApplied(app, e);
    if e.OrderPlaced? {
      PlaceKeepsGood(app.book, e.order);
    }
    ApplyKeepsReplays(app, e);
    ApplyKeepsCommands(app, e);
    ApplyKeepsTraceable(app, e);
    forall t, a ensures LedgerHolds(ApplyEvent(app, e).1, t, a) {
      ApplyKeepsLedger(app, e, t, a);
    }
    forall side, who ensures Conserves(ApplyEvent(app, e).1, side, who) {
      ApplyKeepsConserves(app, e, side, who);
    }
    forall who ensures BuyersCovered(ApplyEvent(app, e).1, who) {
      ApplyKeepsCovered(app, e, who);
    }
  }

  /** Every reachable state of the exchange is sound. */
  lemma {:induction false} RunIsSound(market: Market, commands: seq<Command>)
    ensures Sound(Run(market, commands)) && Run(market, commands).market == market
  {
    if commands == [] {
      NewIsSound(market);
    } else {
      var init, c := commands[..|commands| - 1], commands[|commands| - 1];
      RunIsSound(market, init);
      var app := Run(market, init);
      CommandIsEvent(app, c);
      if Perform(app, c) != app {
        var e :| ApplyEvent(app, e) == (Ok(()), Perform(app, c));
        ApplyKeepsSound(app, e);
        EventApplied(app, e);
      }
    }
  }

  /** Replaying the log of any run gives back the very state the run reached. */
  lemma {:induction false} ReplayRebuilds(market: Market, commands: seq<Command>)
    ensures ReplayFrom(NewApp(market), Run(market, commands).events) == Ok(Run(market, commands))
  {
    RunIsSound(market, commands);
  }

  // Reservations of one trader are the limit costs of its bids and the original quantities of its asks.
  lemma {:induction false} ReservedByOrders(market: Market, events: seq<Event>, t: TraderId)
    requires forall e | e in events && e.OrderPlaced? :: B.ReservationFor(e.order, market).Ok?
    ensures SumOf(ReservedFor(market, t, market.quote), events) == SumOf(CostPlaced(Bid, Trader(t)), events)
    ensures SumOf(ReservedFor(market, t, market.base), events) == SumOf(OriginalPlaced(Ask, Trader(t)), events)
  {
    SumSame(ReservedFor(market, t, market.quote), CostPlaced(Bid, Trader(t)), events);
    SumSame(ReservedFor(market, t, market.base), OriginalPlaced(Ask, Trader(t)), events);
  }

  lemma {:induction false} FreshSumsEqual(events: seq<Event>, side: Side, who: Who)
    ensures SumOf(QuantityPlaced(side, who), events) <= SumOf(OriginalPlaced(side, who), events)
    ensures SumOf(QuantityPlaced(side, who), events) == SumOf(OriginalPlaced(side, who), events)
            <==> forall e | e in events && Counts(e, side, who) :: e.order.remaining == e.order.original
  {
    if events != [] {
      var init, e := events[..|events| - 1], events[|events| - 1];
      FreshSumsEqual(init, side, who);
      assert events == init + [e];
    }
  }

  /** Solvency: after any run, what a trader owes and could still owe is covered by its reserved funds. */
  lemma {:induction false} TraderSolvent(market: Market, commands: seq<Command>, t: TraderId)
    ensures var app := Run(market, commands);
            var trades := TradesIn(app.events);
            var base := SumOf(QuantityFilled(Ask, Trader(t)), trades)
                        + SumOf(QuantityResting(Trader(t)), app.book.asks);
            var reservedBase := B.BalanceOf(app.balances, t, market.base).reserved;
            && SumOf(CostFilled(Bid, Trader(t)), trades) + SumOf(CostResting(Trader(t)), app.book.bids)
               <= B.BalanceOf(app.balances, t, market.quote).reserved
            && base <= reservedBase
            && (base == reservedBase <==>
                  forall e | e in app.events && Counts(e, Ask, Trader(t)) :: e.order.remaining == e.order.original)
  {
    RunIsSound(market, commands);
    var app := Run(market, commands);
    ReservedByOrders(market, app.events, t);
    FreshSumsEqual(app.events, Ask, Trader(t));
    assert LedgerHolds(app, t, market.quote) && LedgerHolds(app, t, market.base);
    assert BuyersCovered(app, Trader(t)) && Conserves(app, Ask, Trader(t));
  }

  /** Quantity conservation: bought and sold are the same total, for the whole market and at every moment. */
  lemma {:induction false} BoughtIsSold(market: Market, commands: seq<Command>)
    ensures var app := Run(market, commands);
            var traded := SumOf(QuantityFilled(Bid, Everyone), TradesIn(app.events));
            && SumOf(QuantityPlaced(Bid, Everyone), app.events)
               == SumOf(QuantityResting(Everyone), app.book.bids) + traded
            && SumOf(QuantityPlaced(Ask, Everyone), app.events)
               == SumOf(QuantityResting(Everyone), app.book.asks) + traded
  {
    RunIsSound(market, commands);
    var app := Run(market, commands);
    assert Conserves(app, Bid, Everyone) && Conserves(app, Ask, Everyone);
    SumSame(QuantityFilled(Bid, Everyone), QuantityFilled(Ask, Everyone), TradesIn(app.events));
  }
}
