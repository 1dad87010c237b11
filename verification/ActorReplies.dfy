/** What the market actor answers, and that its answers are its log. */
module ActorReplies {
  import opened Types
  import opened Orders
  import opened ExchangeModel
  import opened ExchangeLaws
  import opened TradeLaws
  import opened ExchangeRuns
  import opened ActorModel
  import opened Sums
  import B = Balances

  // The events one answer stands for.
  function Answered(command: MarketCommand, reply: Result<MarketReply, AppError>): seq<Event> {
    match (command, reply)
    case (CreditDepositCmd(id, trader, asset, amount), Ok(DepositReply)) => [DepositCredited(id, trader, asset, amount)]
    case (PlaceOrderCmd(id, order), Ok(OrderReply(fills))) => [OrderPlaced(id, order, fills)]
    case _ => []
  }

  // Each kind of answer belongs to one kind of command.
  predicate Fits(app: App, command: MarketCommand, reply: Result<MarketReply, AppError>) {
    reply.Ok? ==>
      match reply.value
      case DepositReply => command.CreditDepositCmd?
      case OrderReply(_) => command.PlaceOrderCmd?
      case SnapshotReply(n) => command.SnapshotCmd? && n == |app.events|
      case ShutdownReply => command.ShutdownCmd?
  }

  lemma PersistedIsAnswered(actor: Actor, event: Event, success: MarketReply, journalUp: bool)
    requires actor.app.book.Ordered()
    ensures var h := PersistAndApply(actor, event, success, journalUp);
            && (h.reply.Ok? ==> h.reply.value == success && h.actor.app.events == actor.app.events + [event])
            && (h.reply.Err? ==> h.actor.app.events == actor.app.events)
  {
    if ApplyEvent(actor.app, event).0.Ok? {
      EventApplied(actor.app, event);
    }
  }

  lemma OrderIsAnswered(actor: Actor, mail: Mail)
    requires actor.app.book.Ordered() && mail.command.PlaceOrderCmd?
    ensures var h := HandleCommand(actor, mail);
            && Fits(actor.app, mail.command, h.reply)
            && h.actor.app.events == actor.app.events + Answered(mail.command, h.reply)
  {
    var derived := PlaceOrderEvent(actor.app, mail.command.command, mail.command.order);
    if derived.Ok? {
      PersistedIsAnswered(actor, derived.value.0, OrderReply(derived.value.1), mail.journalUp);
    }
  }

  lemma DepositIsAnswered(actor: Actor, mail: Mail)
    requires actor.app.book.Ordered() && mail.command.CreditDepositCmd?
    ensures var h := HandleCommand(actor, mail);
            && Fits(actor.app, mail.command, h.reply)
            && h.actor.app.events == actor.app.events + Answered(mail.command, h.reply)
  {
    var c := mail.command;
    var derived := CreditDepositEvent(actor.app, c.command, c.trader, c.asset, c.amount);
    if derived.Ok? {
      PersistedIsAnswered(actor, derived.value, DepositReply, mail.journalUp);
    }
  }

  /** Every answer tells what happened: the log grows by exactly the event the answer stands for, an order's with the
      very fills in the answer, and a refusal logs nothing. */
  lemma AnswerIsLogged(actor: Actor, mail: Mail)
    requires actor.app.book.Ordered()
    ensures var h := HandleCommand(actor, mail);
            && Fits(actor.app, mail.command, h.reply)
            && h.actor.app.events == actor.app.events + Answered(mail.command, h.reply)
  {
    if mail.command.PlaceOrderCmd? {
      OrderIsAnswered(actor, mail);
    } else if mail.command.CreditDepositCmd? {
      DepositIsAnswered(actor, mail);
    }
  }

  // The events all answers stand for, and the trades in the answers to orders.
  function AnsweredAll(mailbox: seq<Mail>, replies: seq<Result<MarketReply, AppError>>): seq<Event>
    requires |replies| <= |mailbox|
    decreases |replies|
  {
    if replies == [] then [] else Answered(mailbox[0].command, replies[0]) + AnsweredAll(mailbox[1..], replies[1..])
  }

  function TradesAnswered(command: MarketCommand, reply: Result<MarketReply, AppError>): seq<Trade> {
    match (command, reply)
    case (PlaceOrderCmd(_, order), Ok(OrderReply(fills))) => TradesOf(order, fills)
    case _ => []
  }

  function AnsweredTrades(mailbox: seq<Mail>, replies: seq<Result<MarketReply, AppError>>): seq<Trade>
    requires |replies| <= |mailbox|
    decreases |replies|
  {
    if replies == [] then []
    else TradesAnswered(mailbox[0].command, replies[0]) + AnsweredTrades(mailbox[1..], replies[1..])
  }

  lemma {:induction false} AnsweredFirst(
    mailbox: seq<Mail>, reply: Result<MarketReply, AppError>, rest: seq<Result<MarketReply, AppError>>)
    requires |rest| < |mailbox|
    ensures AnsweredAll(mailbox, [reply] + rest)
            == Answered(mailbox[0].command, reply) + AnsweredAll(mailbox[1..], rest)
  {
    assert ([reply] + rest)[1..] == rest;
  }

  lemma {:induction false} NothingAnswered(mailbox: seq<Mail>, reply: Result<MarketReply, AppError>)
    requires mailbox != []
    ensures AnsweredAll(mailbox, [reply]) == Answered(mailbox[0].command, reply)
  {
    AnsweredFirst(mailbox, reply, []);
    assert [reply] + [] == [reply];
    assert Answered(mailbox[0].command, reply) + [] == Answered(mailbox[0].command, reply);
  }

  /** Over every mailbox: the answers, read in order, are exactly the events the run has logged. */
  lemma {:induction false} AnswersAreTheLog(actor: Actor, mailbox: seq<Mail>)
    requires actor.app.book.Ordered()
    ensures var out := RunActor(actor, mailbox);
            && |out.replies| <= |mailbox|
            && out.actor.app.events == actor.app.events + AnsweredAll(mailbox, out.replies)
    decreases |mailbox|
  {
    if mailbox != [] {
      var h := HandleCommand(Receive(actor), mailbox[0]);
      AnswerIsLogged(Receive(actor), mailbox[0]);
      NothingAnswered(mailbox, h.reply);
      if !h.stop {
        AnswersAreTheLog(h.actor, mailbox[1..]);
        var rest := RunActor(h.actor, mailbox[1..]);
        AnsweredFirst(mailbox, h.reply, rest.replies);
        LogsJoin(actor.app.events, Answered(mailbox[0].command, h.reply), AnsweredAll(mailbox[1..], rest.replies));
      }
    }
  }

  lemma LogsJoin(a: seq<Event>, b: seq<Event>, c: seq<Event>)
    ensures a + b + c == a + (b + c)
  {
  }

  lemma {:induction false} TradesInJoin(events: seq<Event>, more: seq<Event>)
    ensures TradesIn(events + more) == TradesIn(events) + TradesIn(more)
  {
    if more == [] {
      assert events + more == events;
    } else {
      var init, last := more[..|more| - 1], more[|more| - 1];
      TradesInJoin(events, init);
      LogsJoin(events, init, [last]);
      assert more == init + [last];
      TradesInPush(events + init, last);
      TradesInPush(init, last);
      TradesJoin(TradesIn(events), TradesIn(init), if last.OrderPlaced? then TradesOf(last.order, last.fills) else []);
    }
  }

  lemma TradesJoin(a: seq<Trade>, b: seq<Trade>, c: seq<Trade>)
    ensures a + b + c == a + (b + c)
    ensures c == [] ==> a + b + c == a + b && b + c == b
  {
  }

  lemma {:induction false} TradesInOne(e: Event)
    ensures TradesIn([e]) == if e.OrderPlaced? then TradesOf(e.order, e.fills) else []
  {
    assert [e][..0] == [];
  }

  lemma {:induction false} AnsweredTradesAreIn(mailbox: seq<Mail>, replies: seq<Result<MarketReply, AppError>>)
    requires |replies| <= |mailbox|
    ensures TradesIn(AnsweredAll(mailbox, replies)) == AnsweredTrades(mailbox, replies)
    decreases |replies|
  {
    if replies != [] {
      AnsweredTradesAreIn(mailbox[1..], replies[1..]);
      TradesInJoin(Answered(mailbox[0].command, replies[0]), AnsweredAll(mailbox[1..], replies[1..]));
      TradesInAnswer(mailbox[0].command, replies[0]);
      assert AnsweredTrades(mailbox, replies)
             == TradesAnswered(mailbox[0].command, replies[0]) + AnsweredTrades(mailbox[1..], replies[1..]);
    }
  }

  lemma {:induction false} TradesInAnswer(command: MarketCommand, reply: Result<MarketReply, AppError>)
    ensures TradesIn(Answered(command, reply)) == TradesAnswered(command, reply)
  {
    if Answered(command, reply) != [] {
      TradesInOne(Answered(command, reply)[0]);
    }
  }

  /** So the fills a client is answered with are the fills of the log, none missing, none twice, in order. */
  lemma {:induction false} AnsweredTradesAreTheTrades(actor: Actor, mailbox: seq<Mail>)
    requires actor.app.book.Ordered()
    ensures var out := RunActor(actor, mailbox);
            && |out.replies| <= |mailbox|
            && TradesIn(out.actor.app.events) == TradesIn(actor.app.events) + AnsweredTrades(mailbox, out.replies)
  {
    AnswersAreTheLog(actor, mailbox);
    var replies := RunActor(actor, mailbox).replies;
    TradesInJoin(actor.app.events, AnsweredAll(mailbox, replies));
    AnsweredTradesAreIn(mailbox, replies);
  }

  // The commands that were answered with an event.
  function Obeyed(mailbox: seq<Mail>, replies: seq<Result<MarketReply, AppError>>): seq<Command>
    requires |replies| <= |mailbox|
    decreases |replies|
  {
    if replies == [] then [] else ObeyedOne(mailbox[0].command, replies[0]) + Obeyed(mailbox[1..], replies[1..])
  }

  function ObeyedOne(command: MarketCommand, reply: Result<MarketReply, AppError>): seq<Command> {
    if reply.Err? then []
    else
      match command
      case CreditDepositCmd(id, trader, asset, amount) => [Deposit(id, trader, asset, amount)]
      case PlaceOrderCmd(id, order) => [Submit(id, order)]
      case _ => []
  }

  lemma ObeyedIsPerformed(actor: Actor, mail: Mail)
    requires actor.app.book.Ordered()
    ensures var h := HandleCommand(actor, mail);
            var obeyed := ObeyedOne(mail.command, h.reply);
            h.actor.app == if obeyed == [] then actor.app else Perform(actor.app, obeyed[0])
  {
    match mail.command
    case CreditDepositCmd(id, trader, asset, amount) =>
      if id !in actor.app.seen {
        DerivedDepositApplies(actor.app, id, trader, asset, amount);
      }
    case PlaceOrderCmd(id, order) =>
      if PlaceOrderEvent(actor.app, id, order).Ok? {
        DerivedOrderApplies(actor.app, id, order);
      }
    case _ =>
  }

  lemma {:induction false} ObeyedFirst(
    mailbox: seq<Mail>, reply: Result<MarketReply, AppError>, rest: seq<Result<MarketReply, AppError>>)
    requires |rest| < |mailbox|
    ensures Obeyed(mailbox, [reply] + rest) == ObeyedOne(mailbox[0].command, reply) + Obeyed(mailbox[1..], rest)
  {
    assert ([reply] + rest)[1..] == rest;
  }

  lemma {:induction false} RunMore(market: Market, commands: seq<Command>, more: seq<Command>)
    requires |more| <= 1
    ensures Run(market, commands + more)
            == if more == [] then Run(market, commands) else Perform(Run(market, commands), more[0])
  {
    if more == [] {
      assert commands + more == commands;
    } else {
      assert (commands + more)[..|commands|] == commands;
    }
  }

  lemma {:induction false} OneMailIsRun(market: Market, commands: seq<Command>, actor: Actor, mail: Mail)
    requires actor.app == Run(market, commands)
    ensures var h := HandleCommand(Receive(actor), mail);
            h.actor.app == Run(market, commands + ObeyedOne(mail.command, h.reply))
  {
    ObeyedIsPerformed(Receive(actor), mail);
    RunMore(market, commands, ObeyedOne(mail.command, HandleCommand(Receive(actor), mail).reply));
  }

  // Past the first mail.
  lemma {:induction false} ObeyedUnfold(actor: Actor, mailbox: seq<Mail>)
    requires actor.app.book.Ordered() && mailbox != []
    requires var h := HandleCommand(Receive(actor), mailbox[0]);
             !h.stop ==> |RunActor(h.actor, mailbox[1..]).replies| <= |mailbox[1..]|
    ensures var h, out := HandleCommand(Receive(actor), mailbox[0]), RunActor(actor, mailbox);
            var one := ObeyedOne(mailbox[0].command, h.reply);
            && |out.replies| <= |mailbox|
            && (h.stop ==> out.actor == h.actor && Obeyed(mailbox, out.replies) == one)
            && (!h.stop ==>
                  var rest := RunActor(h.actor, mailbox[1..]);
                  out.actor == rest.actor && Obeyed(mailbox, out.replies) == one + Obeyed(mailbox[1..], rest.replies))
  {
    var h := HandleCommand(Receive(actor), mailbox[0]);
    if h.stop {
      ObeyedFirst(mailbox, h.reply, []);
      assert [h.reply] + [] == [h.reply];
    } else {
      ObeyedFirst(mailbox, h.reply, RunActor(h.actor, mailbox[1..]).replies);
    }
  }

  lemma CommandsJoin(a: seq<Command>, b: seq<Command>, c: seq<Command>)
    ensures a + b + c == a + (b + c)
  {
  }

  // From any state the exchange can be in.
  lemma {:induction false} ActorGoesOn(market: Market, commands: seq<Command>, actor: Actor, mailbox: seq<Mail>)
    requires actor.app == Run(market, commands)
    ensures var out := RunActor(actor, mailbox);
            |out.replies| <= |mailbox| && out.actor.app == Run(market, commands + Obeyed(mailbox, out.replies))
    decreases |mailbox|
  {
    if mailbox == [] {
      assert commands + [] == commands;
    } else {
      var h := HandleCommand(Receive(actor), mailbox[0]);
      var one := ObeyedOne(mailbox[0].command, h.reply);
      OneMailIsRun(market, commands, actor, mailbox[0]);
      if !h.stop {
        ActorGoesOn(market, commands + one, h.actor, mailbox[1..]);
        CommandsJoin(commands, one, Obeyed(mailbox[1..], RunActor(h.actor, mailbox[1..]).replies));
      }
      ObeyedUnfold(actor, mailbox);
    }
  }

  /** A new actor ends up where the exchange does on the commands it said yes to: every law about runs of the exchange
      is a law about runs of the actor. */
  lemma {:induction false} ActorIsRun(market: Market, mailbox: seq<Mail>)
    ensures var out := RunActor(Actor(NewApp(market), [], NO_METRICS), mailbox);
            |out.replies| <= |mailbox| && out.actor.app == Run(market, Obeyed(mailbox, out.replies))
  {
    ActorGoesOn(market, [], Actor(NewApp(market), [], NO_METRICS), mailbox);
    var replies := RunActor(Actor(NewApp(market), [], NO_METRICS), mailbox).replies;
    assert [] + Obeyed(mailbox, replies) == Obeyed(mailbox, replies);
  }

  // What an order sets aside, and where.
  function Needed(order: Order): nat {
    if order.side == Bid then order.price * order.original else order.original
  }

  function Paying(app: App, order: Order): B.Balance {
    B.BalanceOf(app.balances, order.trader, if order.side == Bid then app.market.quote else app.market.base)
  }

  // When a command is answered with success.
  predicate Succeeds(actor: Actor, mail: Mail) {
    match mail.command
    case CreditDepositCmd(id, trader, asset, amount) =>
      && mail.journalUp && id !in actor.app.seen
      && B.BalanceOf(actor.app.balances, trader, asset).available + amount < TWO_64
    case PlaceOrderCmd(id, order) =>
      && mail.journalUp && id !in actor.app.seen && !order.IsTerminal()
      && Needed(order) <= Paying(actor.app, order).available
      && Paying(actor.app, order).reserved + Needed(order) < TWO_64
    case _ => true
  }

  /** When the actor says yes: to a deposit that is new and fits, to an order that is new, live and covered, both with
      the journal up, and to every snapshot and shutdown. */
  lemma AnsweredExactly(actor: Actor, mail: Mail)
    requires actor.app.book.Ordered()
    ensures HandleCommand(actor, mail).reply.Ok? <==> Succeeds(actor, mail)
  {
    match mail.command
    case CreditDepositCmd(id, trader, asset, amount) =>
      if id !in actor.app.seen {
        DerivedDepositApplies(actor.app, id, trader, asset, amount);
      }
    case PlaceOrderCmd(id, order) =>
      OrderAcceptedExactly(actor.app, id, order);
      if PlaceOrderEvent(actor.app, id, order).Ok? {
        DerivedOrderApplies(actor.app, id, order);
      }
    case _ =>
  }

  // What a refusal says about the command that got it.
  predicate Explains(actor: Actor, mail: Mail, e: AppError) {
    match e
    case DuplicateCommand =>
      (mail.command.CreditDepositCmd? || mail.command.PlaceOrderCmd?) && mail.command.command in actor.app.seen
    case JournalAppendFailed => (mail.command.CreditDepositCmd? || mail.command.PlaceOrderCmd?) && !mail.journalUp
    case ReplayMismatch => false
    case Domain(ArithmeticOverflow) =>
      || Overflows(actor, mail)
      || (&& mail.command.PlaceOrderCmd?
          && Paying(actor.app, mail.command.order).reserved + Needed(mail.command.order) >= TWO_64)
    case Domain(OrderAlreadyTerminal) => mail.command.PlaceOrderCmd? && mail.command.order.IsTerminal()
    case Domain(AmountConversionOverflow) => mail.command.PlaceOrderCmd? && Needed(mail.command.order) >= TWO_64
    case Domain(InsufficientAvailableBalance) =>
      mail.command.PlaceOrderCmd? && Needed(mail.command.order) > Paying(actor.app, mail.command.order).available
    case Domain(_) => false
  }

  lemma OrderRefusalIsTrue(app: App, id: CommandId, order: Order)
    requires app.book.Ordered() && PlaceOrderEvent(app, id, order).Err?
    ensures match PlaceOrderEvent(app, id, order).error
            case DuplicateCommand => id in app.seen
            case Domain(OrderAlreadyTerminal) => order.IsTerminal()
            case Domain(AmountConversionOverflow) => Needed(order) >= TWO_64
            case Domain(InsufficientAvailableBalance) => Needed(order) > Paying(app, order).available
            case Domain(ArithmeticOverflow) => Paying(app, order).reserved + Needed(order) >= TWO_64
            case _ => false
  {
  }

  /** No refusal lies: what it complains about is really wrong with the command. */
  lemma RefusalsAreTrue(actor: Actor, mail: Mail)
    requires actor.app.book.Ordered() && HandleCommand(actor, mail).reply.Err?
    ensures Explains(actor, mail, HandleCommand(actor, mail).reply.error)
  {
    match mail.command
    case CreditDepositCmd(id, trader, asset, amount) =>
      if id !in actor.app.seen {
        DerivedDepositApplies(actor.app, id, trader, asset, amount);
      }
    case PlaceOrderCmd(id, order) =>
      if PlaceOrderEvent(actor.app, id, order).Err? {
        OrderRefusalIsTrue(actor.app, id, order);
      } else {
        DerivedOrderApplies(actor.app, id, order);
      }
    case _ =>
  }

  // What ends the actor: a shutdown, or a deposit that is journaled and cannot be applied.
  predicate Ends(actor: Actor, mail: Mail) {
    mail.command.ShutdownCmd? || Overflows(actor, mail)
  }

  lemma {:induction false} StopsExactly(actor: Actor, mail: Mail)
    requires Sound(actor.app) && InStep(actor)
    ensures HandleCommand(actor, mail).stop <==> Ends(actor, mail)
  {
    HandleKeepsStep(actor, mail);
    JamsExactly(actor, mail);
  }

  // The first mail that ends the actor, if one does.
  function EndsAt(actor: Actor, mailbox: seq<Mail>): Option<nat>
    requires actor.app.book.Ordered()
    decreases |mailbox|
  {
    if mailbox == [] then None
    else if Ends(actor, mailbox[0]) then Some(0)
    else
      match EndsAt(HandleCommand(Receive(actor), mailbox[0]).actor, mailbox[1..])
      case None => None
      case Some(n) => Some(n + 1)
  }

  /** Over every mailbox: each mail up to the first one that ends the actor is answered once, and none behind it. */
  lemma {:induction false} AnswersUpToTheEnd(actor: Actor, mailbox: seq<Mail>)
    requires Sound(actor.app) && InStep(actor)
    ensures var out, end := RunActor(actor, mailbox), EndsAt(actor, mailbox);
            && (out.stopped <==> end.Some?)
            && |out.replies| == if end.Some? then end.value + 1 else |mailbox|
    decreases |mailbox|
  {
    if mailbox != [] {
      var h := HandleCommand(Receive(actor), mailbox[0]);
      HandleKeepsStep(Receive(actor), mailbox[0]);
      StopsExactly(Receive(actor), mailbox[0]);
      if !h.stop {
        AnswersUpToTheEnd(h.actor, mailbox[1..]);
      }
    }
  }

  lemma PlusFromZero(n: nat)
    ensures Plus(0, n) == n % TWO_64
  {
  }

  // Counters that count these replies and nothing else.
  ghost predicate Counts(m: Metrics, replies: seq<Result<MarketReply, AppError>>, stuck: bool) {
    && m.received == |replies| % TWO_64
    && m.accepted == SumOf(IsAccepted(), replies) % TWO_64
    && m.rejected == SumOf(IsRejected(), replies) % TWO_64
    && m.appendFailures == SumOf(IsAppendFailure(), replies) % TWO_64
    && m.applyFailures == if stuck then 1 else 0
  }

  lemma TalliedFromZero(replies: seq<Result<MarketReply, AppError>>, stuck: bool, m: Metrics)
    requires Tallied(NO_METRICS, replies, stuck, m)
    ensures Counts(m, replies, stuck)
  {
    PlusFromZero(|replies|);
    PlusFromZero(SumOf(IsAccepted(), replies));
    PlusFromZero(SumOf(IsRejected(), replies));
    PlusFromZero(SumOf(IsAppendFailure(), replies));
  }

  /** An actor with new counters counts from zero: they are the numbers of its replies of each kind, modulo 2^64. */
  lemma {:induction false} CountsFromZero(actor: Actor, mailbox: seq<Mail>)
    requires Sound(actor.app) && InStep(actor) && actor.metrics == NO_METRICS
    ensures var out := RunActor(actor, mailbox); Counts(out.actor.metrics, out.replies, StuckOnDeposit(out.actor))
  {
    MetricsCountReplies(actor, mailbox);
    var out := RunActor(actor, mailbox);
    TalliedFromZero(out.replies, StuckOnDeposit(out.actor), out.actor.metrics);
  }
}
