/** The market actor: every accepted event is journaled first and applied second. */
module ActorModel {
  import opened Types
  import opened Orders
  import opened Matching
  import opened ExchangeModel
  import opened ExchangeLaws
  import opened ExchangeRuns
  import opened Sums
  import B = Balances

  datatype MarketCommand =
    | CreditDepositCmd(command: CommandId, trader: TraderId, asset: AssetId, amount: U64)
    | PlaceOrderCmd(command: CommandId, order: Order)
    | SnapshotCmd
    | ShutdownCmd

  datatype MarketReply =
    | DepositReply
    | OrderReply(fills: seq<Fill>)
    | SnapshotReply(eventCount: nat)
    | ShutdownReply

  datatype Metrics = Metrics(
    received: U64,
    accepted: U64,
    rejected: U64,
    appendFailures: U64,
    applyFailures: U64)

  const NO_METRICS := Metrics(0, 0, 0, 0, 0)

  // Atomic counters wrap around.
  function Plus(counter: U64, n: nat): U64 {
    (counter + n) % TWO_64
  }

  datatype Actor = Actor(app: App, journal: seq<Event>, metrics: Metrics)

  // One mailbox entry: the command, and whether the journal accepts an append while it is handled.
  datatype Mail = Mail(command: MarketCommand, journalUp: bool)

  // The reply, whether the actor must stop, and the state after the command.
  datatype Handled = Handled(reply: Result<MarketReply, AppError>, stop: bool, actor: Actor)

  function PersistAndApply(actor: Actor, event: Event, success: MarketReply, journalUp: bool): Handled
    requires actor.app.book.Ordered()
  {
    var m := actor.metrics;
    if !journalUp then
      Handled(Err(JournalAppendFailed), false, actor.(metrics := m.(appendFailures := Plus(m.appendFailures, 1))))
    else
      var journaled := actor.(journal := actor.journal + [event]);
      var (applied, app) := ApplyEvent(actor.app, event);
      if applied.Ok? then Handled(Ok(success), false, journaled.(app := app))
      else Handled(Err(applied.error), true,
                   journaled.(app := app, metrics := m.(applyFailures := Plus(m.applyFailures, 1))))
  }

  function Derive(app: App, command: MarketCommand): Result<(Event, MarketReply), AppError>
    requires app.book.Ordered()
    requires command.CreditDepositCmd? || command.PlaceOrderCmd?
  {
    match command
    case CreditDepositCmd(id, trader, asset, amount) =>
      var event :- CreditDepositEvent(app, id, trader, asset, amount);
      Ok((event, DepositReply))
    case PlaceOrderCmd(id, order) =>
      var derived :- PlaceOrderEvent(app, id, order);
      Ok((derived.0, OrderReply(derived.1)))
  }

  function DeriveAndPersist(actor: Actor, mail: Mail): Handled
    requires actor.app.book.Ordered()
    requires mail.command.CreditDepositCmd? || mail.command.PlaceOrderCmd?
  {
    match Derive(actor.app, mail.command)
    case Err(e) => Handled(Err(e), false, actor)
    case Ok((event, success)) => PersistAndApply(actor, event, success, mail.journalUp)
  }

  function Settle(h: Handled): Handled {
    var m := h.actor.metrics;
    h.(actor := h.actor.(metrics := if h.reply.Ok? then m.(accepted := Plus(m.accepted, 1))
                                    else m.(rejected := Plus(m.rejected, 1))))
  }

  function HandleCommand(actor: Actor, mail: Mail): (h: Handled)
    requires actor.app.book.Ordered()
    ensures h.actor.app.book.Ordered()
  {
    match mail.command
    case SnapshotCmd => Settle(Handled(Ok(SnapshotReply(|actor.app.events|)), false, actor))
    case ShutdownCmd => Settle(Handled(Ok(ShutdownReply), true, actor))
    case _ => Settle(DeriveAndPersist(actor, mail))
  }

  function Receive(actor: Actor): Actor {
    actor.(metrics := actor.metrics.(received := Plus(actor.metrics.received, 1)))
  }

  // What the actor did: the replies in order, the final state, and whether it stopped by itself.
  datatype ActorRun = ActorRun(replies: seq<Result<MarketReply, AppError>>, stopped: bool, actor: Actor)

  function RunActor(actor: Actor, mailbox: seq<Mail>): (out: ActorRun)
    requires actor.app.book.Ordered()
    ensures out.actor.app.book.Ordered()
    decreases |mailbox|
  {
    if mailbox == [] then ActorRun([], false, actor)
    else
      var h := HandleCommand(Receive(actor), mailbox[0]);
      if h.stop then ActorRun([h.reply], true, h.actor)
      else
        var rest := RunActor(h.actor, mailbox[1..]);
        rest.(replies := [h.reply] + rest.replies)
  }

  // The journal and the application tell the same story.
  ghost predicate InStep(actor: Actor) {
    actor.journal == actor.app.events
  }

  // The one way to fall out of step: a deposit was journaled whose credit leaves the 64-bit range.
  ghost predicate StuckOnDeposit(actor: Actor) {
    exists e: Event ::
      && actor.journal == actor.app.events + [e]
      && e.DepositCredited?
      && e.command !in actor.app.seen
      && B.BalanceOf(actor.app.balances, e.trader, e.asset).available + e.amount >= TWO_64
  }

  lemma HandleKeepsStep(actor: Actor, mail: Mail)
    requires Sound(actor.app) && InStep(actor)
    ensures var h := HandleCommand(actor, mail);
            && Sound(h.actor.app)
            && h.actor.app.market == actor.app.market
            && (InStep(h.actor) || (h.stop && StuckOnDeposit(h.actor)))
            && (h.stop && mail.command != ShutdownCmd <==> StuckOnDeposit(h.actor))
  {
    var h := HandleCommand(actor, mail);
    var app := actor.app;
    match mail.command
    case SnapshotCmd =>
    case ShutdownCmd =>
    case PlaceOrderCmd(id, order) =>
      if PlaceOrderEvent(app, id, order).Ok? && mail.journalUp {
        DerivedOrderApplies(app, id, order);
        var event := PlaceOrderEvent(app, id, order).value.0;
        ApplyKeepsSound(app, event);
        EventApplied(app, event);
      }
    case CreditDepositCmd(id, trader, asset, amount) =>
      if CreditDepositEvent(app, id, trader, asset, amount).Ok? && mail.journalUp {
        DerivedDepositApplies(app, id, trader, asset, amount);
        var event := CreditDepositEvent(app, id, trader, asset, amount).value;
        if ApplyEvent(app, event).0.Ok? {
          ApplyKeepsSound(app, event);
          EventApplied(app, event);
        } else {
          assert h.actor.journal == h.actor.app.events + [event];
        }
      }
  }

  /** The journal protocol: at every moment the journal is the event log, unless the actor stopped on a deposit. */
  lemma {:induction false} JournalProtocol(actor: Actor, mailbox: seq<Mail>)
    requires Sound(actor.app) && InStep(actor)
    ensures var out := RunActor(actor, mailbox);
            && Sound(out.actor.app)
            && out.actor.app.market == actor.app.market
            && (InStep(out.actor) || (out.stopped && StuckOnDeposit(out.actor)))
    decreases |mailbox|
  {
    if mailbox != [] {
      var h := HandleCommand(Receive(actor), mailbox[0]);
      HandleKeepsStep(Receive(actor), mailbox[0]);
      if !h.stop {
        JournalProtocol(h.actor, mailbox[1..]);
      }
    }
  }

  /** The journal of an actor in step rebuilds its application; that of a stuck actor rebuilds nothing. */
  lemma {:induction false} InStepMeansRecoverable(last: Actor)
    requires Sound(last.app) && (InStep(last) || StuckOnDeposit(last))
    ensures var rebuilt := ReplayFrom(NewApp(last.app.market), last.journal);
            && (rebuilt.Ok? <==> !StuckOnDeposit(last))
            && (rebuilt.Ok? ==> rebuilt.value == last.app)
  {
    if StuckOnDeposit(last) {
      var e :| && last.journal == last.app.events + [e]
               && e.DepositCredited?
               && e.command !in last.app.seen
               && B.BalanceOf(last.app.balances, e.trader, e.asset).available + e.amount >= TWO_64;
      ReplayOneMore(NewApp(last.app.market), last.app.events, e);
      assert ApplyEvent(last.app, e).0.Err?;
    }
  }

  // A deposit that will be journaled here and cannot be applied: its command is new and its credit leaves 64 bits.
  predicate Overflows(actor: Actor, mail: Mail) {
    && mail.journalUp && mail.command.CreditDepositCmd? && mail.command.command !in actor.app.seen
    && var c := mail.command;
       B.BalanceOf(actor.app.balances, c.trader, c.asset).available + c.amount >= TWO_64
  }

  /** One command jams an actor exactly when it is such a deposit. */
  lemma {:induction false} JamsExactly(actor: Actor, mail: Mail)
    requires Sound(actor.app) && InStep(actor)
    ensures StuckOnDeposit(HandleCommand(actor, mail).actor) <==> Overflows(actor, mail)
  {
    HandleKeepsStep(actor, mail);
    var h := HandleCommand(actor, mail);
    if mail.command.CreditDepositCmd? && mail.command.command !in actor.app.seen && mail.journalUp {
      var c := mail.command;
      DerivedDepositApplies(actor.app, c.command, c.trader, c.asset, c.amount);
    } else if mail.command.PlaceOrderCmd? && PlaceOrderEvent(actor.app, mail.command.command, mail.command.order).Ok? {
      DerivedOrderApplies(actor.app, mail.command.command, mail.command.order);
    }
  }

  // The actor gets to the n-th mail without stopping, and there it is such a deposit.
  predicate JamsAt(actor: Actor, mailbox: seq<Mail>, n: nat)
    requires actor.app.book.Ordered() && n < |mailbox|
  {
    var before := RunActor(actor, mailbox[..n]);
    !before.stopped && Overflows(before.actor, mailbox[n])
  }

  predicate Jams(actor: Actor, mailbox: seq<Mail>)
    requires actor.app.book.Ordered()
  {
    exists n: nat | n < |mailbox| :: JamsAt(actor, mailbox, n)
  }

  lemma {:induction false} JamsFirst(actor: Actor, mailbox: seq<Mail>)
    requires actor.app.book.Ordered() && mailbox != []
    ensures JamsAt(actor, mailbox, 0) <==> Overflows(actor, mailbox[0])
  {
    assert mailbox[..0] == [];
  }

  // Past the first mail, a run that went on is the run of the rest.
  lemma {:induction false} JamsLater(actor: Actor, mailbox: seq<Mail>, n: nat)
    requires actor.app.book.Ordered() && 0 < n < |mailbox|
    ensures var h := HandleCommand(Receive(actor), mailbox[0]);
            JamsAt(actor, mailbox, n) <==> !h.stop && JamsAt(h.actor, mailbox[1..], n - 1)
  {
    assert mailbox[..n][0] == mailbox[0] && mailbox[..n][1..] == mailbox[1..][..n - 1];
    assert mailbox[1..][n - 1] == mailbox[n];
  }

  lemma {:induction false} JamsUnfold(actor: Actor, mailbox: seq<Mail>)
    requires actor.app.book.Ordered() && mailbox != []
    ensures var h := HandleCommand(Receive(actor), mailbox[0]);
            Jams(actor, mailbox) <==> Overflows(actor, mailbox[0]) || (!h.stop && Jams(h.actor, mailbox[1..]))
  {
    var h := HandleCommand(Receive(actor), mailbox[0]);
    JamsFirst(actor, mailbox);
    if Jams(actor, mailbox) {
      var n: nat :| n < |mailbox| && JamsAt(actor, mailbox, n);
      if n > 0 {
        JamsLater(actor, mailbox, n);
      }
    }
    if !h.stop && Jams(h.actor, mailbox[1..]) {
      var n: nat :| n < |mailbox[1..]| && JamsAt(h.actor, mailbox[1..], n);
      JamsLater(actor, mailbox, n + 1);
    }
  }

  /** Over whole runs: the actor ends up stuck exactly when such a deposit reaches it. */
  lemma {:induction false} StuckExactly(actor: Actor, mailbox: seq<Mail>)
    requires Sound(actor.app) && InStep(actor)
    ensures StuckOnDeposit(RunActor(actor, mailbox).actor) <==> Jams(actor, mailbox)
    decreases |mailbox|
  {
    if mailbox == [] {
      assert !StuckOnDeposit(actor);
    } else {
      var h := HandleCommand(Receive(actor), mailbox[0]);
      HandleKeepsStep(Receive(actor), mailbox[0]);
      JamsExactly(Receive(actor), mailbox[0]);
      JamsUnfold(actor, mailbox);
      if !h.stop {
        StuckExactly(h.actor, mailbox[1..]);
      }
    }
  }

  /** After a restart: the journal rebuilds the application exactly when no overflowing deposit reached the actor. */
  lemma {:induction false} JournalRecovers(actor: Actor, mailbox: seq<Mail>)
    requires Sound(actor.app) && InStep(actor)
    ensures var last := RunActor(actor, mailbox).actor;
            var rebuilt := ReplayFrom(NewApp(actor.app.market), last.journal);
            && (rebuilt.Ok? <==> !Jams(actor, mailbox))
            && (rebuilt.Ok? ==> rebuilt.value == last.app)
  {
    JournalProtocol(actor, mailbox);
    StuckExactly(actor, mailbox);
    InStepMeansRecoverable(RunActor(actor, mailbox).actor);
  }

  /** A new actor that gets stuck: of two deposits to one account the second overflows, and the journal that holds both
      never replays. */
  lemma {:induction false} RestartFails(market: Market)
    ensures var actor := Actor(NewApp(market), [], NO_METRICS);
            var mailbox := [Mail(CreditDepositCmd(1, 1, market.base, TWO_64 - 1), true),
                            Mail(CreditDepositCmd(2, 1, market.base, 1), true)];
            var out := RunActor(actor, mailbox);
            && out.stopped && |out.actor.journal| == 2 && |out.actor.app.events| == 1
            && ReplayFrom(NewApp(market), out.actor.journal).Err?
  {
    var actor := Actor(NewApp(market), [], NO_METRICS);
    var first := Mail(CreditDepositCmd(1, 1, market.base, TWO_64 - 1), true);
    var second := Mail(CreditDepositCmd(2, 1, market.base, 1), true);
    var h1 := HandleCommand(Receive(actor), first);
    assert !h1.stop && B.BalanceOf(h1.actor.app.balances, 1, market.base) == B.Balance(TWO_64 - 1, 0);
    var h2 := HandleCommand(Receive(h1.actor), second);
    assert h2.stop && |h2.actor.journal| == 2;
    assert [first, second][1..] == [second];
    NewIsSound(market);
    JournalRecovers(actor, [first, second]);
  }

  function IsAccepted(): Result<MarketReply, AppError> -> nat {
    (r: Result<MarketReply, AppError>) => if r.Ok? then 1 else 0
  }

  function IsRejected(): Result<MarketReply, AppError> -> nat {
    (r: Result<MarketReply, AppError>) => if r.Err? then 1 else 0
  }

  function IsAppendFailure(): Result<MarketReply, AppError> -> nat {
    (r: Result<MarketReply, AppError>) => if r == Err(JournalAppendFailed) then 1 else 0
  }

  function IsEvent(): Result<MarketReply, AppError> -> nat {
    (r: Result<MarketReply, AppError>) => if r.Ok? && (r.value.DepositReply? || r.value.OrderReply?) then 1 else 0
  }

  lemma OnlyTheJournalFailsToAppend(app: App, command: MarketCommand, e: Event)
    requires app.book.Ordered()
    requires command.CreditDepositCmd? || command.PlaceOrderCmd?
    ensures Derive(app, command) != Err(JournalAppendFailed)
    ensures ApplyEvent(app, e).0 != Err(JournalAppendFailed)
  {
  }

  // A counter goes up by one exactly when the thing it counts happened.
  ghost predicate Ticks(before: U64, after: U64, happened: bool) {
    after == if happened then Plus(before, 1) else before
  }

  ghost predicate Counted(actor: Actor, h: Handled) {
    var m, m' := actor.metrics, h.actor.metrics;
    && m'.received == m.received
    && Ticks(m.accepted, m'.accepted, h.reply.Ok?)
    && Ticks(m.rejected, m'.rejected, h.reply.Err?)
    && Ticks(m.appendFailures, m'.appendFailures, h.reply == Err(JournalAppendFailed))
    && Ticks(m.applyFailures, m'.applyFailures, StuckOnDeposit(h.actor))
    && |h.actor.app.events| == |actor.app.events| + IsEvent()(h.reply)
  }

  lemma HandleCounts(actor: Actor, mail: Mail)
    requires actor.app.book.Ordered()
    requires var h := HandleCommand(actor, mail); StuckOnDeposit(h.actor) <==> h.stop && mail.command != ShutdownCmd
    ensures Counted(actor, HandleCommand(actor, mail))
  {
    if mail.command.CreditDepositCmd? || mail.command.PlaceOrderCmd? {
      var derived := Derive(actor.app, mail.command);
      if derived.Ok? {
        OnlyTheJournalFailsToAppend(actor.app, mail.command, derived.value.0);
        if ApplyEvent(actor.app, derived.value.0).0.Ok? {
          EventApplied(actor.app, derived.value.0);
        }
      }
    }
  }

  // The counters m' are the counters m plus the replies of each kind.
  ghost predicate Tallied(m: Metrics, replies: seq<Result<MarketReply, AppError>>, stuck: bool, m': Metrics) {
    && m'.received == Plus(m.received, |replies|)
    && m'.accepted == Plus(m.accepted, SumOf(IsAccepted(), replies))
    && m'.rejected == Plus(m.rejected, SumOf(IsRejected(), replies))
    && m'.appendFailures == Plus(m.appendFailures, SumOf(IsAppendFailure(), replies))
    && m'.applyFailures == Plus(m.applyFailures, if stuck then 1 else 0)
  }

  lemma TalliedNone(m: Metrics)
    ensures Tallied(m, [], false, m)
  {
  }

  lemma TickThenPlus(before: U64, middle: U64, happened: bool, n: nat)
    requires Ticks(before, middle, happened)
    ensures Plus(middle, n) == Plus(before, (if happened then 1 else 0) + n)
  {
  }

  lemma TalliedFirst(
    m: Metrics, m1: Metrics, reply: Result<MarketReply, AppError>, stuckNow: bool,
    rest: seq<Result<MarketReply, AppError>>, stuckLater: bool, m2: Metrics)
    requires m1.received == Plus(m.received, 1)
    requires Ticks(m.accepted, m1.accepted, reply.Ok?)
    requires Ticks(m.rejected, m1.rejected, reply.Err?)
    requires Ticks(m.appendFailures, m1.appendFailures, reply == Err(JournalAppendFailed))
    requires Ticks(m.applyFailures, m1.applyFailures, stuckNow)
    requires Tallied(m1, rest, stuckLater, m2) && !(stuckNow && stuckLater)
    ensures Tallied(m, [reply] + rest, stuckNow || stuckLater, m2)
  {
    SumCons(IsAccepted(), reply, rest);
    SumCons(IsRejected(), reply, rest);
    SumCons(IsAppendFailure(), reply, rest);
    TickThenPlus(m.received, m1.received, true, |rest|);
    TickThenPlus(m.accepted, m1.accepted, reply.Ok?, SumOf(IsAccepted(), rest));
    TickThenPlus(m.rejected, m1.rejected, reply.Err?, SumOf(IsRejected(), rest));
    TickThenPlus(m.appendFailures, m1.appendFailures, reply == Err(JournalAppendFailed),
                 SumOf(IsAppendFailure(), rest));
    TickThenPlus(m.applyFailures, m1.applyFailures, stuckNow, if stuckLater then 1 else 0);
  }

  // The first mail of a run, seen from outside.
  lemma FirstMail(actor: Actor, mailbox: seq<Mail>) returns (h: Handled)
    requires Sound(actor.app) && InStep(actor) && mailbox != []
    ensures Sound(h.actor.app)
    ensures !h.stop ==> InStep(h.actor) && !StuckOnDeposit(h.actor)
    ensures Counted(Receive(actor), h)
    ensures RunActor(actor, mailbox) ==
            if h.stop then ActorRun([h.reply], true, h.actor)
            else var rest := RunActor(h.actor, mailbox[1..]); rest.(replies := [h.reply] + rest.replies)
  {
    h := HandleCommand(Receive(actor), mailbox[0]);
    HandleKeepsStep(Receive(actor), mailbox[0]);
    HandleCounts(Receive(actor), mailbox[0]);
  }

  /** Every counter is the number of replies of its kind, modulo 2^64, and every accepted event is in the log. */
  lemma {:induction false} MetricsCountReplies(actor: Actor, mailbox: seq<Mail>)
    requires Sound(actor.app) && InStep(actor)
    ensures var out := RunActor(actor, mailbox);
            && Tallied(actor.metrics, out.replies, StuckOnDeposit(out.actor), out.actor.metrics)
            && |out.actor.app.events| == |actor.app.events| + SumOf(IsEvent(), out.replies)
    decreases |mailbox|
  {
    if mailbox == [] {
      TalliedNone(actor.metrics);
    } else {
      var h := FirstMail(actor, mailbox);
      if h.stop {
        TalliedNone(h.actor.metrics);
        TalliedFirst(actor.metrics, h.actor.metrics, h.reply, StuckOnDeposit(h.actor), [], false, h.actor.metrics);
        assert [h.reply] + [] == [h.reply];
        SumCons(IsEvent(), h.reply, []);
      } else {
        MetricsCountReplies(h.actor, mailbox[1..]);
        var out := RunActor(h.actor, mailbox[1..]);
        TalliedFirst(actor.metrics, h.actor.metrics, h.reply, false, out.replies, StuckOnDeposit(out.actor),
                     out.actor.metrics);
        SumCons(IsEvent(), h.reply, out.replies);
      }
    }
  }
}
