/** A run in which a trader buys from itself: the exchange accepts it, and the fill can never settle. */
module SelfTradeExample {
  import opened Types
  import opened Orders
  import opened Matching
  import opened OrderBook
  import opened ExchangeModel
  import opened ExchangeLaws
  import opened TradeLaws
  import opened SettlementModel
  import opened SettlementLaws
  import opened Bridge
  import opened Settleability
  import opened SettleabilityExample
  import opened Sums
  import B = Balances

  const LONER: TraderId := 1

  function OwnAsk(): Order {
    NewOrder(1, LONER, 1, Ask, 5, 10, 1)
  }

  function OwnBid(): Order {
    NewOrder(2, LONER, 1, Bid, 5, 10, 2)
  }

  function OwnCommands(): seq<Command> {
    [Deposit(1, LONER, QUOTE, 50)] + [Deposit(2, LONER, BASE, 10)] + [Submit(3, OwnAsk())] + [Submit(4, OwnBid())]
  }

  function OwnFill(): Fill {
    Fill(1, 2, LONER, LONER, 5, 10)
  }

  function OwnEvents(): seq<Event> {
    [DepositCredited(1, LONER, QUOTE, 50)] + [DepositCredited(2, LONER, BASE, 10)]
    + [OrderPlaced(3, OwnAsk(), [])] + [OrderPlaced(4, OwnBid(), [OwnFill()])]
  }

  lemma AskRests()
    ensures Place(Book([], []), OwnAsk()) == Ok(([], Book([], [OwnAsk()])))
  {
    assert Greedy(OwnAsk(), []) == Outcome(OwnAsk(), [], []);
    assert FlatInsert(Ask, [], OwnAsk()) == [OwnAsk()];
  }

  lemma BidTrades()
    ensures Place(Book([], [OwnAsk()]), OwnBid()) == Ok(([OwnFill()], Book([], [])))
  {
    var filled := ApplyFill(OwnBid(), 10).value;
    assert Greedy(filled, []) == Outcome(filled, [], []);
    assert [OwnAsk()][1..] == [];
    assert Greedy(OwnBid(), [OwnAsk()]) == Outcome(filled, [], [OwnFill()] + []);
    assert [OwnFill()] + [] == [OwnFill()];
  }

  function Own1(): App {
    NewApp(TheMarket()).(balances := map[(LONER, QUOTE) := B.Balance(50, 0)], events := OwnEvents()[..1], seen := {1})
  }

  function Own2(): App {
    Own1().(balances := Own1().balances[(LONER, BASE) := B.Balance(10, 0)], events := OwnEvents()[..2], seen := {1, 2})
  }

  function Own3(): App {
    Own2().(balances := Own2().balances[(LONER, BASE) := B.Balance(0, 10)], book := Book([], [OwnAsk()]),
            events := OwnEvents()[..3], seen := {1, 2, 3})
  }

  lemma QuoteComes()
    ensures Perform(NewApp(TheMarket()), OwnCommands()[0]) == Own1()
  {
  }

  lemma BaseComes()
    ensures Perform(Own1(), OwnCommands()[1]) == Own2()
  {
  }

  lemma Asks()
    ensures Perform(Own2(), OwnCommands()[2]) == Own3()
  {
    AskRests();
  }

  lemma Bids()
    ensures Perform(Own3(), OwnCommands()[3]).events == OwnEvents()
    ensures Perform(Own3(), OwnCommands()[3]).market == TheMarket()
  {
    BidTrades();
  }

  function OwnJobs(): seq<Job> {
    [Job(Trade(OwnBid(), OwnFill()), 7, 100)]
  }

  /** Both orders are placed, and the exchange makes a fill of one trader with itself. */
  lemma {:induction false} SelfTradeHappens()
    ensures Run(TheMarket(), OwnCommands()).events == OwnEvents()
    ensures Run(TheMarket(), OwnCommands()).market == TheMarket()
    ensures TradesIn(OwnEvents()) == TradesOfJobs(OwnJobs()) == [Trade(OwnBid(), OwnFill())]
    ensures !NoSelfTrades(TradesIn(OwnEvents()))
  {
    var m, c := TheMarket(), OwnCommands();
    assert c[..1] == [] + [c[0]] && c[..2] == c[..1] + [c[1]] && c[..3] == c[..2] + [c[2]] && c == c[..3] + [c[3]];
    RunPush(m, [], c[0]);
    RunPush(m, c[..1], c[1]);
    RunPush(m, c[..2], c[2]);
    RunPush(m, c[..3], c[3]);
    QuoteComes();
    BaseComes();
    Asks();
    Bids();
    OwnTrades();
  }

  lemma {:induction false} OwnTrades()
    ensures TradesIn(OwnEvents()) == TradesOfJobs(OwnJobs()) == [Trade(OwnBid(), OwnFill())]
    ensures !NoSelfTrades(TradesIn(OwnEvents()))
  {
    var e := OwnEvents();
    TradesInPush([], e[0]);
    TradesInPush([e[0]], e[1]);
    TradesInPush([e[0]] + [e[1]], e[2]);
    TradesInPush([e[0]] + [e[1]] + [e[2]], e[3]);
    assert [] + [e[0]] == [e[0]];
    assert TradesOf(OwnBid(), [OwnFill()]) == [Trade(OwnBid(), OwnFill())];
    assert OwnJobs()[..0] == [];
    assert TradesIn(OwnEvents())[0] in TradesIn(OwnEvents());
  }

  function OwnStore(): Store {
    map[1 := Signed(OwnAsk()), 2 := Signed(OwnBid())]
  }

  function OwnChain(): Chain {
    Chain(false, map[KeyOf()(LONER) := TraderBalance(10, 50)], map[], map[], 10, 50)
  }

  lemma OwnFundsAreBacked()
    ensures Backed(OwnChain())
  {
    var none: map<Pubkey, TraderBalance> := map[];
    assert none.Keys == {} && OwnChain().balances == none[KeyOf()(LONER) := TraderBalance(10, 50)];
    SumMapUpdate(BaseHeld(), none, KeyOf()(LONER), TraderBalance(10, 50));
    SumMapUpdate(QuoteHeld(), none, KeyOf()(LONER), TraderBalance(10, 50));
  }

  lemma {:induction false} WhatLonerHas(asset: AssetId)
    ensures SumOf(CreditedTo(LONER, asset), OwnEvents())
            == if asset == QUOTE then 50 else if asset == BASE then 10 else 0
  {
    SumOfFour(CreditedTo(LONER, asset), DepositCredited(1, LONER, QUOTE, 50), DepositCredited(2, LONER, BASE, 10),
              OrderPlaced(3, OwnAsk(), []), OrderPlaced(4, OwnBid(), [OwnFill()]));
  }

  lemma LonerIsFunded(app: App)
    requires app.events == OwnEvents() && app.market == TheMarket()
    ensures Funded(TheDeployment(), OwnChain(), app, TradesOfJobs(OwnJobs()))
  {
    OwnTrades();
    WhatLonerHas(BASE);
    WhatLonerHas(QUOTE);
    forall t | TakesPart(TradesOfJobs(OwnJobs()), t) ensures TraderFunded(TheDeployment(), OwnChain(), app, t) {
      assert t == LONER;
    }
  }

  lemma OwnIsMirrored(o: Order)
    requires o == OwnAsk() || o == OwnBid()
    ensures o.id in OwnStore() && MirrorsOrder(TheDeployment(), OwnStore()[o.id], o, 100)
    ensures Standing(OwnChain(), OwnStore()[o.id].hash, 0)
  {
  }

  lemma WhatIsOwn(o: Order)
    requires IsPlaced(OwnEvents(), o)
    ensures o == OwnAsk() || o == OwnBid()
  {
    var e :| e in OwnEvents() && e.OrderPlaced? && e.order == o;
  }

  lemma OwnOrdersAreDistinct()
    ensures DistinctOrders(OwnEvents())
  {
  }

  lemma OwnOrdersAreMirrored(trades: seq<Trade>)
    ensures Mirrored(TheDeployment(), OwnStore(), OwnEvents(), trades, 100)
    ensures Untouched(TheDeployment(), OwnStore(), OwnChain(), OwnEvents(), trades)
  {
    forall o | IsPlaced(OwnEvents(), o)
      ensures o.id in OwnStore() && MirrorsOrder(TheDeployment(), OwnStore()[o.id], o, 100)
      ensures Standing(OwnChain(), OwnStore()[o.id].hash, 0)
    {
      WhatIsOwn(o);
      OwnIsMirrored(o);
    }
  }

  lemma OwnChainIsReady()
    ensures Backed(OwnChain()) && Keyed(TheDeployment().program, OwnChain()) && !OwnChain().paused
    ensures FreshJobs(OwnJobs(), OwnChain().receipts.Keys, 100)
  {
    OwnFundsAreBacked();
  }

  /** Everything else is in order, down to the signatures and the funds, and the fill does not settle. */
  lemma {:induction false} SelfTradeIsStuck()
    ensures ReadyToSettle(TheDeployment(), OwnStore(), Run(TheMarket(), OwnCommands()), OwnChain(), OwnJobs(), 100)
    ensures !AllSettled(TheDeployment(), OwnStore(), Run(TheMarket(), OwnCommands()).events,
                        TradesOfJobs(OwnJobs()), OwnChain(), OwnJobs())
  {
    SelfTradeHappens();
    LonerIsFunded(Run(TheMarket(), OwnCommands()));
    OwnOrdersAreMirrored(TradesOfJobs(OwnJobs()));
    OwnOrdersAreDistinct();
    OwnChainIsReady();
    IsWellDeployed();
    SettlesExactly(TheDeployment(), OwnStore(), TheMarket(), OwnCommands(), OwnChain(), OwnJobs(), 100);
  }
}
