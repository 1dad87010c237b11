/** A small market that meets every premise of the settleability theorem, and its one fill settled. */
module SettleabilityExample {
  import opened Types
  import opened Orders
  import opened Matching
  import opened OrderBook
  import opened Preimages
  import opened ExchangeModel
  import opened ExchangeLaws
  import opened TradeLaws
  import opened SettlementModel
  import opened SettlementTypes
  import opened SettlementLaws
  import opened Bridge
  import opened Settleability
  import opened Sums
  import B = Balances

  const BASE: AssetId := 1
  const QUOTE: AssetId := 2
  const BUYER: TraderId := 1
  const SELLER: TraderId := 2

  const MARKET_KEY: Pubkey := [
    1, 0, 0, 0, 0, 0, 0, 0, 0, 0, 0, 0, 0, 0, 0, 0,
    0, 0, 0, 0, 0, 0, 0, 0, 0, 0, 0, 0, 0, 0, 0, 0]

  function KeyOf(): TraderId -> Pubkey {
    (t: TraderId) => LittleEndian(t, 8) + DEFAULT_KEY[8..]
  }

  function TheMarket(): Market {
    MarketRecord(BASE, QUOTE)
  }

  function TheDeployment(): Deployment {
    Deployment(SettlementBridge(1, MARKET_KEY, MARKET_KEY, MARKET_KEY),
               Program(MARKET_KEY, MARKET_KEY, MARKET_KEY, MARKET_KEY, MARKET_KEY, MARKET_KEY, MARKET_KEY,
                       (x: seq<Byte>) => x, (k: Pubkey, m: seq<Byte>, s: Signature) => true),
               KeyOf())
  }

  // The seller asks 5 for each of 10 units, and the buyer pays it.
  function Sale(): Order {
    NewOrder(1, SELLER, 1, Ask, 5, 10, 1)
  }

  function Purchase(): Order {
    NewOrder(2, BUYER, 1, Bid, 5, 10, 2)
  }

  function Signed(o: Order): StoredOrder
    requires o.id < TWO_64
  {
    var payload := SignedOrderPayload(o.id, MARKET_KEY, KeyOf()(o.trader), o.side, o.price, o.original, 1, 100);
    StoredOrder(o.trader, Preimage(payload), payload, ZERO_SIGNATURE_BYTES)
  }

  function TheStore(): Store {
    map[1 := Signed(Sale()), 2 := Signed(Purchase())]
  }

  function TheCommands(): seq<Command> {
    [Deposit(1, BUYER, QUOTE, 50)] + [Deposit(2, SELLER, BASE, 10)] + [Submit(3, Sale())] + [Submit(4, Purchase())]
  }

  function TheFill(): Fill {
    Fill(1, 2, SELLER, BUYER, 5, 10)
  }

  function TheEvents(): seq<Event> {
    [DepositCredited(1, BUYER, QUOTE, 50)] + [DepositCredited(2, SELLER, BASE, 10)]
    + [OrderPlaced(3, Sale(), [])] + [OrderPlaced(4, Purchase(), [TheFill()])]
  }

  function TheChain(): Chain {
    Chain(false, map[KeyOf()(BUYER) := TraderBalance(0, 50)][KeyOf()(SELLER) := TraderBalance(10, 0)],
          map[], map[], 10, 50)
  }

  lemma KeysDiffer(s: TraderId, t: TraderId)
    requires KeyOf()(s) == KeyOf()(t)
    ensures s == t
  {
    Widths();
    SplitEqual(LittleEndian(s, 8), DEFAULT_KEY[8..], LittleEndian(t, 8), DEFAULT_KEY[8..]);
    SameBytesSameNumber(s, t, 8);
  }

  lemma {:induction false} RunPush(market: Market, commands: seq<Command>, c: Command)
    ensures Run(market, commands + [c]) == Perform(Run(market, commands), c)
  {
    assert (commands + [c])[..|commands|] == commands;
  }

  lemma SaleRests()
    ensures Place(Book([], []), Sale()) == Ok(([], Book([], [Sale()])))
  {
    assert Greedy(Sale(), []) == Outcome(Sale(), [], []);
    assert FlatInsert(Ask, [], Sale()) == [Sale()];
  }

  lemma PurchaseTrades()
    ensures Place(Book([], [Sale()]), Purchase()) == Ok(([TheFill()], Book([], [])))
  {
    var filled := ApplyFill(Purchase(), 10).value;
    assert Greedy(filled, []) == Outcome(filled, [], []);
    assert [Sale()][1..] == [];
    assert Greedy(Purchase(), [Sale()]) == Outcome(filled, [], [TheFill()] + []);
    assert [TheFill()] + [] == [TheFill()];
  }

  // The states the four commands lead through.
  function App1(): App {
    NewApp(TheMarket()).(balances := map[(BUYER, QUOTE) := B.Balance(50, 0)], events := TheEvents()[..1], seen := {1})
  }

  function App2(): App {
    App1().(balances := App1().balances[(SELLER, BASE) := B.Balance(10, 0)], events := TheEvents()[..2], seen := {1, 2})
  }

  function App3(): App {
    App2().(balances := App2().balances[(SELLER, BASE) := B.Balance(0, 10)], book := Book([], [Sale()]),
            events := TheEvents()[..3], seen := {1, 2, 3})
  }

  lemma BuyerDeposits()
    ensures Perform(NewApp(TheMarket()), TheCommands()[0]) == App1()
  {
  }

  lemma SellerDeposits()
    ensures Perform(App1(), TheCommands()[1]) == App2()
  {
  }

  lemma SellerAsks()
    ensures Perform(App2(), TheCommands()[2]) == App3()
  {
    SaleRests();
  }

  lemma BuyerBids()
    ensures Perform(App3(), TheCommands()[3]).events == TheEvents()
    ensures Perform(App3(), TheCommands()[3]).market == TheMarket()
  {
    PurchaseTrades();
  }

  lemma {:induction false} TheRun()
    ensures Run(TheMarket(), TheCommands()).events == TheEvents()
    ensures Run(TheMarket(), TheCommands()).market == TheMarket()
  {
    var m, c := TheMarket(), TheCommands();
    assert c[..1] == [] + [c[0]] && c[..2] == c[..1] + [c[1]] && c[..3] == c[..2] + [c[2]] && c == c[..3] + [c[3]];
    RunPush(m, [], c[0]);
    RunPush(m, c[..1], c[1]);
    RunPush(m, c[..2], c[2]);
    RunPush(m, c[..3], c[3]);
    BuyerDeposits();
    SellerDeposits();
    SellerAsks();
    BuyerBids();
  }

  function TheJobs(): seq<Job> {
    [Job(Trade(Purchase(), TheFill()), 7, 100)]
  }

  lemma {:induction false} TheTrades()
    ensures TradesIn(TheEvents()) == [Trade(Purchase(), TheFill())]
    ensures TradesOfJobs(TheJobs()) == [Trade(Purchase(), TheFill())]
  {
    var e := TheEvents();
    TradesInPush([], e[0]);
    TradesInPush([e[0]], e[1]);
    TradesInPush([e[0]] + [e[1]], e[2]);
    TradesInPush([e[0]] + [e[1]] + [e[2]], e[3]);
    assert [] + [e[0]] == [e[0]];
    assert TradesOf(Purchase(), [TheFill()]) == [Trade(Purchase(), TheFill())];
    assert TheJobs()[..0] == [];
  }

  lemma {:induction false} SumOfFour<T>(f: T -> nat, a: T, b: T, c: T, d: T)
    ensures SumOf(f, [a] + [b] + [c] + [d]) == f(a) + f(b) + f(c) + f(d)
  {
    SumCons(f, a, []);
    assert [a] + [] == [a];
    SumPush(f, [a], b);
    SumPush(f, [a] + [b], c);
    SumPush(f, [a] + [b] + [c], d);
  }

  lemma {:induction false} WhatIsCredited(t: TraderId, asset: AssetId)
    ensures SumOf(CreditedTo(t, asset), TheEvents())
            == if t == BUYER && asset == QUOTE then 50 else if t == SELLER && asset == BASE then 10 else 0
  {
    SumOfFour(CreditedTo(t, asset), DepositCredited(1, BUYER, QUOTE, 50), DepositCredited(2, SELLER, BASE, 10),
              OrderPlaced(3, Sale(), []), OrderPlaced(4, Purchase(), [TheFill()]));
  }

  lemma FundsSuffice(app: App)
    requires app.events == TheEvents() && app.market == TheMarket()
    ensures Funded(TheDeployment(), TheChain(), app, TradesOfJobs(TheJobs()))
  {
    if KeyOf()(BUYER) == KeyOf()(SELLER) {
      KeysDiffer(BUYER, SELLER);
    }
    forall t ensures TraderFunded(TheDeployment(), TheChain(), app, t) {
      WhatIsCredited(t, BASE);
      WhatIsCredited(t, QUOTE);
    }
  }

  lemma FundsAreBacked()
    ensures Backed(TheChain())
  {
    if KeyOf()(BUYER) == KeyOf()(SELLER) {
      KeysDiffer(BUYER, SELLER);
    }
    var none: map<Pubkey, TraderBalance> := map[];
    var one := none[KeyOf()(BUYER) := TraderBalance(0, 50)];
    assert none.Keys == {} && TheChain().balances == one[KeyOf()(SELLER) := TraderBalance(10, 0)];
    SumMapUpdate(BaseHeld(), none, KeyOf()(BUYER), TraderBalance(0, 50));
    SumMapUpdate(QuoteHeld(), none, KeyOf()(BUYER), TraderBalance(0, 50));
    SumMapUpdate(BaseHeld(), one, KeyOf()(SELLER), TraderBalance(10, 0));
    SumMapUpdate(QuoteHeld(), one, KeyOf()(SELLER), TraderBalance(10, 0));
  }

  lemma OneIsMirrored(o: Order)
    requires o == Sale() || o == Purchase()
    ensures o.id in TheStore() && MirrorsOrder(TheDeployment(), TheStore()[o.id], o, 100)
    ensures Standing(TheChain(), TheStore()[o.id].hash, 0)
  {
  }

  lemma WhatIsPlaced(o: Order)
    requires IsPlaced(TheEvents(), o)
    ensures o == Sale() || o == Purchase()
  {
    var e :| e in TheEvents() && e.OrderPlaced? && e.order == o;
  }

  lemma OrdersAreMirrored()
    ensures Mirrored(TheDeployment(), TheStore(), TheEvents(), TradesOfJobs(TheJobs()), 100)
    ensures Untouched(TheDeployment(), TheStore(), TheChain(), TheEvents(), TradesOfJobs(TheJobs()))
  {
    forall o | IsPlaced(TheEvents(), o)
      ensures o.id in TheStore() && MirrorsOrder(TheDeployment(), TheStore()[o.id], o, 100)
      ensures Standing(TheChain(), TheStore()[o.id].hash, 0)
    {
      WhatIsPlaced(o);
      OneIsMirrored(o);
    }
  }

  lemma OrdersAreDistinct()
    ensures DistinctOrders(TheEvents())
  {
  }

  lemma IsWellDeployed()
    ensures WellDeployed(TheDeployment())
  {
    forall s, t | KeyOf()(s) == KeyOf()(t) ensures s == t {
      KeysDiffer(s, t);
    }
    assert MARKET_KEY[0] != DEFAULT_KEY[0];
  }

  lemma {:induction false} TheJobIsFair()
    ensures FreshJobs(TheJobs(), TheChain().receipts.Keys, 100) && NoSelfTrades(TradesOfJobs(TheJobs()))
    ensures multiset(TradesOfJobs(TheJobs())) <= multiset(TradesIn(TheEvents()))
    ensures |TradesOfJobs(TheJobs())| == |TradesIn(TheEvents())| == 1
  {
    TheTrades();
  }

  lemma ChainIsKeyed()
    ensures Keyed(TheDeployment().program, TheChain()) && !TheChain().paused
  {
  }

  /** The premises of the main theorem can be met, and there the fill settles. */
  lemma {:induction false} TheFillSettles()
    ensures AllSettled(TheDeployment(), TheStore(), Run(TheMarket(), TheCommands()).events, TradesOfJobs(TheJobs()),
                       TheChain(), TheJobs())
    ensures |TradesOfJobs(TheJobs())| == |TradesIn(Run(TheMarket(), TheCommands()).events)| == 1
  {
    TheRun();
    TheJobIsFair();
    FundsSuffice(Run(TheMarket(), TheCommands()));
    FundsAreBacked();
    ChainIsKeyed();
    OrdersAreMirrored();
    OrdersAreDistinct();
    IsWellDeployed();
    EveryFillSettles(TheDeployment(), TheStore(), TheMarket(), TheCommands(), TheChain(), TheJobs(), 100);
  }
}
