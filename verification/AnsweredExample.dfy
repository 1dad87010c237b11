/** A mailbox whose answers meet every premise of the law from mailbox to chain. */
module AnsweredExample {
  import opened Types
  import opened ExchangeModel
  import opened ExchangeLaws
  import opened ActorModel
  import opened SettleabilityExample
  import opened Worker
  import opened ServiceExample
  import opened AnsweredFills

  // The four commands of the example, each with the journal up.
  function MailOf(c: Command): Mail {
    match c
    case Deposit(id, trader, asset, amount) => Mail(CreditDepositCmd(id, trader, asset, amount), true)
    case Submit(id, order) => Mail(PlaceOrderCmd(id, order), true)
  }

  function MailsOf(commands: seq<Command>): seq<Mail> {
    seq(|commands|, i requires 0 <= i < |commands| => MailOf(commands[i]))
  }

  // A command that is performed is a mail that is answered, and the actor goes on.
  lemma PerformedIsAnswered(actor: Actor, c: Command)
    requires actor.app.book.Ordered() && Perform(actor.app, c).events != actor.app.events
    ensures var h := HandleCommand(actor, MailOf(c)); !h.stop && h.reply.Ok? && h.actor.app == Perform(actor.app, c)
  {
    match c
    case Deposit(id, trader, asset, amount) =>
      if id !in actor.app.seen {
        DerivedDepositApplies(actor.app, id, trader, asset, amount);
      }
    case Submit(id, order) =>
      if PlaceOrderEvent(actor.app, id, order).Ok? {
        DerivedOrderApplies(actor.app, id, order);
      }
  }

  // Every one of these commands is performed from here on.
  predicate AllPerformed(app: App, commands: seq<Command>)
    requires app.book.Ordered()
    decreases |commands|
  {
    commands != [] ==>
      && Perform(app, commands[0]).events != app.events
      && AllPerformed(Perform(app, commands[0]), commands[1..])
  }

  function PerformAll(app: App, commands: seq<Command>): App
    requires app.book.Ordered()
    decreases |commands|
  {
    if commands == [] then app else PerformAll(Perform(app, commands[0]), commands[1..])
  }

  lemma {:induction false} AllAreAnswered(actor: Actor, commands: seq<Command>)
    requires actor.app.book.Ordered() && AllPerformed(actor.app, commands)
    ensures RunActor(actor, MailsOf(commands)).actor.app == PerformAll(actor.app, commands)
    decreases |commands|
  {
    if commands != [] {
      PerformedIsAnswered(Receive(actor), commands[0]);
      assert MailsOf(commands)[1..] == MailsOf(commands[1..]);
      AllAreAnswered(HandleCommand(Receive(actor), MailOf(commands[0])).actor, commands[1..]);
    }
  }

  lemma {:induction false} PerformFirst(app: App, c: Command, rest: seq<Command>)
    requires app.book.Ordered()
    ensures PerformAll(app, [c] + rest) == PerformAll(Perform(app, c), rest)
    ensures AllPerformed(app, [c] + rest)
            <==> Perform(app, c).events != app.events && AllPerformed(Perform(app, c), rest)
  {
    assert ([c] + rest)[1..] == rest;
  }

  lemma {:induction false} AllFourPerformed()
    ensures AllPerformed(NewApp(TheMarket()), TheCommands())
  {
    var c := TheCommands();
    var last := Perform(App3(), c[3]);
    BuyerDeposits();
    SellerDeposits();
    SellerAsks();
    BuyerBids();
    PerformFirst(App3(), c[3], []);
    PerformFirst(App2(), c[2], [c[3]] + []);
    PerformFirst(App1(), c[1], [c[2]] + ([c[3]] + []));
    PerformFirst(NewApp(TheMarket()), c[0], [c[1]] + ([c[2]] + ([c[3]] + [])));
    assert AllPerformed(last, []);
    assert [c[0]] + ([c[1]] + ([c[2]] + ([c[3]] + []))) == c;
  }

  lemma {:induction false} TheAnswers()
    ensures NewRun(TheMarket(), MailsOf(TheCommands())).actor.app == Run(TheMarket(), TheCommands())
  {
    AllFourPerformed();
    AllAreAnswered(Actor(NewApp(TheMarket()), [], NO_METRICS), TheCommands());
    RunIsPerformAll(TheMarket(), [], TheCommands());
    assert [] + TheCommands() == TheCommands();
  }

  lemma {:induction false} RunIsPerformAll(market: Market, before: seq<Command>, commands: seq<Command>)
    ensures Run(market, before + commands) == PerformAll(Run(market, before), commands)
    decreases |commands|
  {
    if commands == [] {
      assert before + commands == before;
    } else {
      RunPush(market, before, commands[0]);
      assert before + commands == before + [commands[0]] + commands[1..];
      RunIsPerformAll(market, before + [commands[0]], commands[1..]);
    }
  }

  lemma {:induction false} TheServiceServesAnswers()
    ensures ServesAnswers(TheMarket(), MailsOf(TheCommands()), TheWork())
  {
    TheAnswers();
    AnswersAreTheRun(TheMarket(), MailsOf(TheCommands()));
    TheRun();
    TheTrades();
    TheQueueIsDrained();
  }

  /** Four mails, answered, served, queued, drained and settled. */
  lemma {:induction false} TheAnswersSettle()
    ensures ServesAnswers(TheMarket(), MailsOf(TheCommands()), TheWork())
    ensures WorkedOff(TheDeployment(), TheWork(), NewRun(TheMarket(), MailsOf(TheCommands())).actor.app.events,
                      TheChain(), EverySlot())
  {
    TheServiceServesAnswers();
    TheAnswers();
    OneIsServed();
    TheQueueIsDrained();
    TheServiceIsReady();
    EveryAnsweredFillSettles(TheDeployment(), TheWork(), TheMarket(), MailsOf(TheCommands()), TheChain(), EverySlot(),
                             100);
  }
}
