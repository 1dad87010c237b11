/** Laws of single calls and of the balance ledger: derive-then-apply, atomicity, replay, conservation of funds. */
module ExchangeLaws {
  import opened Types
  import opened Orders
  import opened Matching
  import opened OrderBook
  import opened ExchangeModel
  import opened Sums
  import B = Balances

  /** An order event that was derived applies on the same state, with the same fills and the simulated state. */
  lemma DerivedOrderApplies(app: App, command: CommandId, order: Order)
    requires app.book.Ordered()
    requires PlaceOrderEvent(app, command, order).Ok?
    ensures var (event, fills) := PlaceOrderEvent(app, command, order).value;
            && PlaceInDomain(app, order).Ok?
            && PlaceInDomain(app, order).value.0 == fills
            && var app' := PlaceInDomain(app, order).value.1;
               ApplyEvent(app, event) == (Ok(()), app'.(events := app.events + [event], seen := app.seen + {command}))
  {
  }

  /** A deposit event that was derived fails to apply exactly when the credit would leave the 64-bit range. */
  lemma DerivedDepositApplies(app: App, command: CommandId, trader: TraderId, asset: AssetId, amount: U64)
    requires app.book.Ordered()
    requires CreditDepositEvent(app, command, trader, asset, amount).Ok?
    ensures var event := CreditDepositEvent(app, command, trader, asset, amount).value;
            && (ApplyEvent(app, event).0.Ok? <==> B.BalanceOf(app.balances, trader, asset).available + amount < TWO_64)
            && (ApplyEvent(app, event).0.Err? ==> ApplyEvent(app, event).1 == app)
  {
  }

  /** Whatever a deposit or an order is refused for, the application is left exactly as it was. */
  lemma RefusalsLeaveNoTrace(app: App, command: CommandId, trader: TraderId, asset: AssetId, amount: U64, order: Order)
    requires app.book.Ordered()
    ensures CreditDeposit(app, command, trader, asset, amount).0.Err? ==>
              CreditDeposit(app, command, trader, asset, amount).1 == app
    ensures PlaceOrder(app, command, order).0.Err? ==> PlaceOrder(app, command, order).1 == app
  {
  }

  // The order of the event can still be placed here, but not with the fills the event claims.
  predicate Mismatches(app: App, event: Event)
    requires app.book.Ordered()
  {
    && event.OrderPlaced? && event.command !in app.seen
    && PlaceInDomain(app, event.order).Ok? && PlaceInDomain(app, event.order).value.0 != event.fills
  }

  // A placement that goes through moves funds, so it never gives back the state it met.
  lemma PlacingChanges(app: App, order: Order)
    requires app.book.Ordered() && PlaceInDomain(app, order).Ok?
    ensures PlaceInDomain(app, order).value.1.balances != app.balances
  {
    var r := B.ReservationFor(order, app.market).value;
    var balances := PlaceInDomain(app, order).value.1.balances;
    assert r.amount > 0;
    assert B.BalanceOf(balances, r.trader, r.asset).available
        == B.BalanceOf(app.balances, r.trader, r.asset).available - r.amount;
  }

  /** Applying a foreign event is not atomic: it fails and still changes the state exactly when its order can be placed
      but gives other fills than the event claims. */
  lemma FailedApplyLeavesTrace(app: App, event: Event)
    requires app.book.Ordered()
    ensures ApplyEvent(app, event).0.Err? && ApplyEvent(app, event).1 != app <==> Mismatches(app, event)
  {
    if event.OrderPlaced? && PlaceInDomain(app, event.order).Ok? {
      PlacingChanges(app, event.order);
    }
  }

  /** An input that leaves a trace: after one deposit, an event whose fills were never made reserves the funds, rests
      the order, and fails. */
  lemma {:induction false} MismatchExample()
    ensures var app := Run(MarketRecord(1, 2), [Deposit(1, 1, 2, 50)]);
            var event := OrderPlaced(2, NewOrder(1, 1, 1, Bid, 5, 10, 1), [Fill(7, 1, 3, 1, 5, 10)]);
            var (r, app') := ApplyEvent(app, event);
            && Mismatches(app, event) && r == Err(ReplayMismatch)
            && B.BalanceOf(app.balances, 1, 2) == B.Balance(50, 0)
            && B.BalanceOf(app'.balances, 1, 2) == B.Balance(0, 50)
            && app.book.bids == [] && app'.book.bids == [event.order] && app'.events == app.events
  {
    var market, deposit: Command := MarketRecord(1, 2), Deposit(1, 1, 2, 50);
    assert [deposit][..0] == [];
    assert Run(market, [deposit]) == Perform(Run(market, []), deposit);
    var order := NewOrder(1, 1, 1, Bid, 5, 10, 1);
    assert Greedy(order, []) == Outcome(order, [], []);
    assert FlatInsert(Bid, [], order) == [order];
  }

  /** When an order is accepted, in terms of what it asks for: it is live, its command is new, the trader has the funds
      available, and the amounts fit 64 bits; the reserved funds then move and nothing else is touched. */
  lemma OrderAcceptedExactly(app: App, command: CommandId, order: Order)
    requires app.book.Ordered()
    ensures var asset := if order.side == Bid then app.market.quote else app.market.base;
            var amount := if order.side == Bid then order.price * order.original else order.original;
            var b := B.BalanceOf(app.balances, order.trader, asset);
            var (r, app') := PlaceOrder(app, command, order);
            && (r.Ok? <==>
                  && command !in app.seen && !order.IsTerminal()
                  && amount <= b.available && b.reserved + amount < TWO_64)
            && (r.Ok? ==>
                  && app'.market == app.market
                  && app'.events == app.events + [OrderPlaced(command, order, r.value)]
                  && B.BalanceOf(app'.balances, order.trader, asset).available == b.available - amount
                  && B.BalanceOf(app'.balances, order.trader, asset).reserved == b.reserved + amount
                  && forall t, a | t != order.trader || a != asset ::
                       B.BalanceOf(app'.balances, t, a) == B.BalanceOf(app.balances, t, a))
  {
    var amount := if order.side == Bid then B.QuoteCost(order.price, order.original) else order.original;
    assert order.side == Bid ==> amount == order.price * order.original;
  }

  datatype Command =
    | Deposit(command: CommandId, trader: TraderId, asset: AssetId, amount: U64)
    | Submit(command: CommandId, order: Order)

  function Perform(app: App, c: Command): (app': App)
    requires app.book.Ordered()
    ensures app'.book.Ordered()
  {
    match c
    case Deposit(command, trader, asset, amount) => CreditDeposit(app, command, trader, asset, amount).1
    case Submit(command, order) => PlaceOrder(app, command, order).1
  }

  // The state after a sequence of commands, accepted or refused, on a new application.
  function Run(market: Market, commands: seq<Command>): (app: App)
    ensures app.book.Ordered()
  {
    if commands == [] then NewApp(market)
    else Perform(Run(market, commands[..|commands| - 1]), commands[|commands| - 1])
  }

  /** A command either changes nothing or is one event, recorded and applied. */
  lemma CommandIsEvent(app: App, c: Command)
    requires app.book.Ordered()
    ensures var app' := Perform(app, c);
            app' == app || exists e :: ApplyEvent(app, e) == (Ok(()), app')
  {
    match c
    case Deposit(command, trader, asset, amount) =>
      if Perform(app, c) != app {
        var e := CreditDepositEvent(app, command, trader, asset, amount).value;
        assert ApplyEvent(app, e) == (Ok(()), Perform(app, c));
      }
    case Submit(command, order) =>
      if Perform(app, c) != app {
        var e := PlaceOrderEvent(app, command, order).value.0;
        assert ApplyEvent(app, e) == (Ok(()), Perform(app, c));
      }
  }

  // What a successfully applied event says about the state it met and the state it leaves.
  lemma EventApplied(app: App, e: Event)
    requires app.book.Ordered() && ApplyEvent(app, e).0.Ok?
    ensures var app' := ApplyEvent(app, e).1;
            && app'.market == app.market
            && app'.events == app.events + [e]
            && (e.DepositCredited? ==> app'.book == app.book)
            && (e.OrderPlaced? ==>
                  && !e.order.IsTerminal()
                  && B.ReservationFor(e.order, app.market).Ok?
                  && Place(app.book, e.order) == Ok((e.fills, app'.book)))
  {
  }

  // The log alone rebuilds the state.
  ghost predicate Replays(app: App) {
    && app.book.Ordered()
    && ReplayFrom(NewApp(app.market), app.events) == Ok(app)
  }

  lemma {:induction false} ReplayOneMore(start: App, events: seq<Event>, e: Event)
    requires start.book.Ordered() && ReplayFrom(start, events).Ok?
    ensures var app := ReplayFrom(start, events).value;
            && app.book.Ordered()
            && ReplayFrom(start, events + [e]) ==
               (if ApplyEvent(app, e).0.Ok? then Ok(ApplyEvent(app, e).1) else Err(ApplyEvent(app, e).0.error))
    decreases |events|
  {
    if events == [] {
      assert ([] + [e])[1..] == [];
    } else {
      ReplayOneMore(ApplyEvent(start, events[0]).1, events[1..], e);
      assert (events + [e])[1..] == events[1..] + [e];
    }
  }

  lemma ApplyKeepsReplays(app: App, e: Event)
    requires Replays(app) && ApplyEvent(app, e).0.Ok?
    ensures Replays(ApplyEvent(app, e).1)
  {
    ReplayOneMore(NewApp(app.market), app.events, e);
  }

  ghost predicate CommandsRecorded(app: App) {
    && app.seen == (set e | e in app.events :: e.command)
    && forall i, j | 0 <= i < j < |app.events| :: app.events[i].command != app.events[j].command
  }

  lemma ApplyKeepsCommands(app: App, e: Event)
    requires app.book.Ordered()
    requires CommandsRecorded(app) && ApplyEvent(app, e).0.Ok?
    ensures CommandsRecorded(ApplyEvent(app, e).1)
  {
    assert e.command !in app.seen;
    assert forall x | x in app.events :: x.command in app.seen;
  }

  // What an event adds to the credited and to the reserved funds of one trader in one asset.
  function CreditedTo(trader: TraderId, asset: AssetId): Event -> nat {
    (e: Event) => if e.DepositCredited? && e.trader == trader && e.asset == asset then e.amount else 0
  }

  function ReservedFor(market: Market, trader: TraderId, asset: AssetId): Event -> nat {
    (e: Event) =>
      if e.DepositCredited? then 0
      else match B.ReservationFor(e.order, market)
           case Err(_) => 0
           case Ok(r) => if r.trader == trader && r.asset == asset then r.amount else 0
  }

  // Funds are never created or lost: they are deposits, split by the reservations of the placed orders.
  ghost predicate LedgerHolds(app: App, trader: TraderId, asset: AssetId) {
    var b := B.BalanceOf(app.balances, trader, asset);
    && b.available + b.reserved == SumOf(CreditedTo(trader, asset), app.events)
    && b.reserved == SumOf(ReservedFor(app.market, trader, asset), app.events)
  }

  // A credit raises one entry, a reservation moves funds within one entry, and no other entry changes.
  lemma CreditMoves(balances: B.Balances, trader: TraderId, asset: AssetId, amount: U64, t: TraderId, a: AssetId)
    requires B.Credited(balances, trader, asset, amount).Ok?
    ensures var was := B.BalanceOf(balances, t, a);
            var now := B.BalanceOf(B.Credited(balances, trader, asset, amount).value, t, a);
            && now.reserved == was.reserved
            && now.available == was.available + (if t == trader && a == asset then amount else 0)
  {
  }

  lemma ReserveMoves(balances: B.Balances, res: B.Reservation, t: TraderId, a: AssetId)
    requires B.Reserved(balances, res).Ok?
    ensures var was := B.BalanceOf(balances, t, a);
            var now := B.BalanceOf(B.Reserved(balances, res).value, t, a);
            var amount := if t == res.trader && a == res.asset then res.amount else 0;
            && now.reserved == was.reserved + amount
            && now.available == was.available - amount
  {
  }

  lemma ApplyKeepsLedger(app: App, e: Event, t: TraderId, a: AssetId)
    requires app.book.Ordered()
    requires LedgerHolds(app, t, a) && ApplyEvent(app, e).0.Ok?
    ensures LedgerHolds(ApplyEvent(app, e).1, t, a)
  {
    SumPush(CreditedTo(t, a), app.events, e);
    SumPush(ReservedFor(app.market, t, a), app.events, e);
    match e
    case DepositCredited(_, trader, asset, amount) =>
      CreditMoves(app.balances, trader, asset, amount, t, a);
    case OrderPlaced(_, order, _) =>
      ReserveMoves(app.balances, B.ReservationFor(order, app.market).value, t, a);
  }
}
