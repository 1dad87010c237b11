/** The exchange application: the class whose every call computes what the model says. */
module Application {
  import opened Types
  import opened Orders
  import opened Matching
  import opened ExchangeModel
  import B = Balances
  import Model = ExchangeModel

  class ExchangeApplication {
    const market: Market
    var balances: B.BalanceSheet
    var matching: MatchingEngine
    var events: seq<Event>
    var seen: set<CommandId>

    ghost function Parts(): set<object>
      reads this
    {
      {balances, matching.bids, matching.asks}
    }

    ghost predicate Valid()
      reads this, Parts()
    {
      matching.Valid()
    }

    ghost function View(): (app: App)
      reads this, Parts()
      requires Valid()
      ensures app.book.Ordered()
    {
      App(market, balances.balances, matching.View(), events, seen)
    }

    constructor (market: Market)
      ensures Valid() && fresh(Parts())
      ensures View() == NewApp(market)
    {
      this.market := market;
      balances := new B.BalanceSheet();
      matching := new MatchingEngine();
      events := [];
      seen := {};
    }

    constructor Clone(that: ExchangeApplication)
      requires that.Valid()
      ensures Valid() && fresh(Parts())
      ensures View() == that.View()
    {
      market := that.market;
      balances := new B.BalanceSheet.Clone(that.balances);
      matching := new MatchingEngine.Clone(that.matching);
      events := that.events;
      seen := that.seen;
    }

    method PlaceOrderInDomain(order: Order) returns (r: Result<seq<Fill>, AppError>)
      requires Valid()
      modifies this
      ensures Valid() && (balances == old(balances) || fresh(balances))
      ensures matching == old(matching) || fresh({matching.bids, matching.asks})
      ensures match PlaceInDomain(old(View()), order)
              case Err(e) => r == Err(e) && View() == old(View())
              case Ok((fills, app)) => r == Ok(fills) && View() == app
    {
      if order.IsTerminal() {
        return Err(Domain(OrderAlreadyTerminal));
      }
      var reservation := B.ReservationFor(order, market);
      if reservation.Err? {
        return Err(Domain(reservation.error));
      }
      var balances' := new B.BalanceSheet.Clone(balances);
      var matching' := new MatchingEngine.Clone(matching);
      var reserved := balances'.Reserve(reservation.value);
      if reserved.Err? {
        return Err(Domain(reserved.error));
      }
      // The engine refuses nothing but a terminal order, so its error exit is closed here.
      var fills := matching'.PlaceOrder(order);
      balances := balances';
      matching := matching';
      r := Ok(fills.value);
    }

    method CreditDepositEvent(command: CommandId, trader: TraderId, asset: AssetId, amount: U64)
      returns (r: Result<Event, AppError>)
      requires Valid()
      ensures r == Model.CreditDepositEvent(View(), command, trader, asset, amount)
    {
      if command in seen {
        return Err(DuplicateCommand);
      }
      r := Ok(DepositCredited(command, trader, asset, amount));
    }

    method PlaceOrderEvent(command: CommandId, order: Order) returns (r: Result<(Event, seq<Fill>), AppError>)
      requires Valid()
      ensures Valid() && View() == old(View())
      ensures r == Model.PlaceOrderEvent(View(), command, order)
    {
      if command in seen {
        return Err(DuplicateCommand);
      }
      var simulation := new ExchangeApplication.Clone(this);
      var fills := simulation.PlaceOrderInDomain(order);
      if fills.Err? {
        return Err(fills.error);
      }
      r := Ok((OrderPlaced(command, order, fills.value), fills.value));
    }

    method RecordAppliedEvent(event: Event) returns (r: Result<(), AppError>)
      requires Valid()
      modifies this`events, this`seen
      ensures Valid() && (r, View()) == Record(old(View()), event)
    {
      if event.command in seen {
        return Err(DuplicateCommand);
      }
      seen := seen + {event.command};
      events := events + [event];
      r := Ok(());
    }

    method ApplyEvent(event: Event) returns (r: Result<(), AppError>)
      requires Valid()
      modifies this, balances
      ensures Valid() && (balances == old(balances) || fresh(balances))
      ensures matching == old(matching) || fresh({matching.bids, matching.asks})
      ensures (r, View()) == Model.ApplyEvent(old(View()), event)
    {
      if event.command in seen {
        return Err(DuplicateCommand);
      }
      match event
      case DepositCredited(_, trader, asset, amount) =>
        var credited := balances.CreditTo(trader, asset, amount);
        if credited.Err? {
          return Err(Domain(credited.error));
        }
        r := RecordAppliedEvent(event);
      case OrderPlaced(_, order, fills) =>
        var replayed :- PlaceOrderInDomain(order);
        if replayed != fills {
          return Err(ReplayMismatch);
        }
        r := RecordAppliedEvent(event);
    }

    method CreditDeposit(command: CommandId, trader: TraderId, asset: AssetId, amount: U64)
      returns (r: Result<(), AppError>)
      requires Valid()
      modifies this, balances
      ensures Valid() && (balances == old(balances) || fresh(balances))
      ensures matching == old(matching) || fresh({matching.bids, matching.asks})
      ensures (r, View()) == Model.CreditDeposit(old(View()), command, trader, asset, amount)
    {
      var event :- this.CreditDepositEvent(command, trader, asset, amount);
      r := this.ApplyEvent(event);
    }

    method PlaceOrder(command: CommandId, order: Order) returns (r: Result<seq<Fill>, AppError>)
      requires Valid()
      modifies this, balances
      ensures Valid() && (balances == old(balances) || fresh(balances))
      ensures matching == old(matching) || fresh({matching.bids, matching.asks})
      ensures (r, View()) == Model.PlaceOrder(old(View()), command, order)
    {
      var derived :- this.PlaceOrderEvent(command, order);
      var applied := this.ApplyEvent(derived.0);
      match applied
      case Err(e) => r := Err(e);
      case Ok(_) => r := Ok(derived.1);
    }

    // Takes the next event of a log whose replay comes to `whole`.
    method ApplyNext(rest: seq<Event>, ghost whole: Result<App, AppError>) returns (r: Result<(), AppError>)
      requires Valid() && rest != [] && ComesTo(View(), rest, whole)
      modifies this, balances
      ensures Valid() && (balances == old(balances) || fresh(balances))
      ensures matching == old(matching) || fresh({matching.bids, matching.asks})
      ensures if r.Err? then whole == Err(r.error) else ComesTo(View(), rest[1..], whole)
    {
      r := this.ApplyEvent(rest[0]);
    }
  }

  // Applying the rest of a log to this state gives that result.
  ghost predicate ComesTo(app: App, rest: seq<Event>, whole: Result<App, AppError>)
    requires app.book.Ordered()
  {
    ReplayFrom(app, rest) == whole
  }

  method Replay(market: Market, events: seq<Event>) returns (r: Result<ExchangeApplication, AppError>)
    ensures match ReplayFrom(NewApp(market), events)
            case Err(e) => r == Err(e)
            case Ok(app) =>
              r.Ok? && fresh(r.value) && fresh(r.value.Parts()) && r.value.Valid() && r.value.View() == app
  {
    ghost var whole := ReplayFrom(NewApp(market), events);
    var app := new ExchangeApplication(market);
    var rest := events;
    while rest != []
      invariant fresh(app) && fresh(app.balances) && fresh({app.matching.bids, app.matching.asks}) && app.Valid()
      invariant ComesTo(app.View(), rest, whole)
      decreases |rest|
    {
      var applied := app.ApplyNext(rest, whole);
      if applied.Err? {
        return Err(applied.error);
      }
      rest := rest[1..];
    }
    r := Ok(app);
  }
}
