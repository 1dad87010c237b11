/** The event-sourced exchange as a function of its state. */
module ExchangeModel {
  import opened Types
  import opened Orders
  import opened Matching
  import opened MatchingLaws
  import B = Balances

  datatype Event =
    | DepositCredited(command: CommandId, trader: TraderId, asset: AssetId, amount: U64)
    | OrderPlaced(command: CommandId, order: Order, fills: seq<Fill>)

  datatype App = App(
    market: Market,
    balances: B.Balances,
    book: Book,
    events: seq<Event>,
    seen: set<CommandId>)

  function NewApp(market: Market): App {
    App(market, map[], Book([], []), [], {})
  }

  // Reserve, then match; the result replaces the state only when both succeed.
  function PlaceInDomain(app: App, order: Order): (r: Result<(seq<Fill>, App), AppError>)
    requires app.book.Ordered()
    ensures r.Ok? ==> r.value.1.book.Ordered()
  {
    PlaceKeepsOrdered(app.book, order);
    if order.IsTerminal() then Err(Domain(OrderAlreadyTerminal))
    else
      match B.ReservationFor(order, app.market)
      case Err(e) => Err(Domain(e))
      case Ok(reservation) =>
        match B.Reserved(app.balances, reservation)
        case Err(e) => Err(Domain(e))
        case Ok(balances) =>
          match Place(app.book, order)
          case Err(e) => Err(Domain(e))
          case Ok((fills, book)) => Ok((fills, app.(balances := balances, book := book)))
  }

  function CreditDepositEvent(
    app: App, command: CommandId, trader: TraderId, asset: AssetId, amount: U64): Result<Event, AppError>
  {
    if command in app.seen then Err(DuplicateCommand) else Ok(DepositCredited(command, trader, asset, amount))
  }

  // The event is derived on a throw-away copy of the state.
  function PlaceOrderEvent(app: App, command: CommandId, order: Order): Result<(Event, seq<Fill>), AppError>
    requires app.book.Ordered()
  {
    if command in app.seen then Err(DuplicateCommand)
    else
      var placed :- PlaceInDomain(app, order);
      Ok((OrderPlaced(command, order, placed.0), placed.0))
  }

  function Record(app: App, event: Event): (Result<(), AppError>, App) {
    if event.command in app.seen then (Err(DuplicateCommand), app)
    else (Ok(()), app.(events := app.events + [event], seen := app.seen + {event.command}))
  }

  // The state is part of the result because not every error leaves it alone.
  function ApplyEvent(app: App, event: Event): (r: (Result<(), AppError>, App))
    requires app.book.Ordered()
    ensures r.1.book.Ordered()
  {
    if event.command in app.seen then (Err(DuplicateCommand), app)
    else
      match event
      case DepositCredited(_, trader, asset, amount) => (
        match B.Credited(app.balances, trader, asset, amount)
        case Err(e) => (Err(Domain(e)), app)
        case Ok(balances) => Record(app.(balances := balances), event))
      case OrderPlaced(_, order, fills) =>
        match PlaceInDomain(app, order)
        case Err(e) => (Err(e), app)
        case Ok((replayed, app')) =>
          if replayed != fills then (Err(ReplayMismatch), app') else Record(app', event)
  }

  function CreditDeposit(
    app: App, command: CommandId, trader: TraderId, asset: AssetId, amount: U64): (Result<(), AppError>, App)
    requires app.book.Ordered()
  {
    match CreditDepositEvent(app, command, trader, asset, amount)
    case Err(e) => (Err(e), app)
    case Ok(event) => ApplyEvent(app, event)
  }

  function PlaceOrder(app: App, command: CommandId, order: Order): (Result<seq<Fill>, AppError>, App)
    requires app.book.Ordered()
  {
    match PlaceOrderEvent(app, command, order)
    case Err(e) => (Err(e), app)
    case Ok((event, fills)) =>
      var (applied, app') := ApplyEvent(app, event);
      if applied.Err? then (Err(applied.error), app') else (Ok(fills), app')
  }

  // Rebuilding from a log: every event must apply.
  function ReplayFrom(app: App, events: seq<Event>): Result<App, AppError>
    requires app.book.Ordered()
    decreases |events|
  {
    if events == [] then Ok(app)
    else
      var (applied, app') := ApplyEvent(app, events[0]);
      if applied.Err? then Err(applied.error) else ReplayFrom(app', events[1..])
  }
}
