/** The market actor's objects: the journal, the counters and the receive loop. */
module Runtime {
  import opened Types
  import opened ExchangeModel
  import opened ActorModel
  import Model = ActorModel
  import A = Application

  class EventJournal {
    var entries: seq<Event>

    constructor ()
      ensures entries == []
    {
      entries := [];
    }

    // A failed append writes nothing.
    method Append(event: Event, up: bool) returns (ok: bool)
      modifies this
      ensures ok == up
      ensures entries == if up then old(entries) + [event] else old(entries)
    {
      if up {
        entries := entries + [event];
      }
      ok := up;
    }
  }

  class MarketActor {
    const app: A.ExchangeApplication
    const journal: EventJournal
    var metrics: Metrics

    ghost predicate Valid()
      reads this, app, app.Parts()
    {
      app.Valid()
    }

    ghost function View(): (actor: Actor)
      reads this, app, app.Parts(), journal
      requires Valid()
      ensures actor.app.book.Ordered()
    {
      Actor(app.View(), journal.entries, metrics)
    }

    constructor (app: A.ExchangeApplication, journal: EventJournal)
      requires app.Valid()
      ensures this.app == app && this.journal == journal
      ensures Valid() && View() == Actor(app.View(), journal.entries, NO_METRICS)
    {
      this.app := app;
      this.journal := journal;
      metrics := NO_METRICS;
    }

    method PersistAndApply(event: Event, success: MarketReply, journalUp: bool)
      returns (reply: Result<MarketReply, AppError>, stop: bool)
      requires Valid()
      modifies this, app, app.balances, journal
      ensures Valid() && (app.balances == old(app.balances) || fresh(app.balances))
      ensures Handled(reply, stop, View()) == Model.PersistAndApply(old(View()), event, success, journalUp)
    {
      var appended := journal.Append(event, journalUp);
      if !appended {
        metrics := metrics.(appendFailures := Plus(metrics.appendFailures, 1));
        return Err(JournalAppendFailed), false;
      }
      var applied := app.ApplyEvent(event);
      if applied.Ok? {
        return Ok(success), false;
      }
      metrics := metrics.(applyFailures := Plus(metrics.applyFailures, 1));
      return Err(applied.error), true;
    }

    method RecordOutcome(reply: Result<MarketReply, AppError>)
      modifies this`metrics
      ensures metrics == if reply.Ok? then old(metrics).(accepted := Plus(old(metrics).accepted, 1))
                         else old(metrics).(rejected := Plus(old(metrics).rejected, 1))
    {
      if reply.Ok? {
        metrics := metrics.(accepted := Plus(metrics.accepted, 1));
      } else {
        metrics := metrics.(rejected := Plus(metrics.rejected, 1));
      }
    }

    method DeriveEvent(command: MarketCommand) returns (r: Result<(Event, MarketReply), AppError>)
      requires Valid() && (command.CreditDepositCmd? || command.PlaceOrderCmd?)
      ensures Valid() && View() == old(View())
      ensures r == Derive(app.View(), command)
    {
      match command
      case CreditDepositCmd(id, trader, asset, amount) =>
        var event :- app.CreditDepositEvent(id, trader, asset, amount);
        r := Ok((event, DepositReply));
      case PlaceOrderCmd(id, order) =>
        var derived :- app.PlaceOrderEvent(id, order);
        r := Ok((derived.0, OrderReply(derived.1)));
    }

    method HandleEvent(mail: Mail) returns (reply: Result<MarketReply, AppError>, stop: bool)
      requires Valid() && (mail.command.CreditDepositCmd? || mail.command.PlaceOrderCmd?)
      modifies this, app, app.balances, journal
      ensures Valid() && (app.balances == old(app.balances) || fresh(app.balances))
      ensures Handled(reply, stop, View()) == DeriveAndPersist(old(View()), mail)
    {
      var derived := DeriveEvent(mail.command);
      if derived.Err? {
        return Err(derived.error), false;
      }
      reply, stop := PersistAndApply(derived.value.0, derived.value.1, mail.journalUp);
    }

    method Handle(mail: Mail) returns (reply: Result<MarketReply, AppError>, stop: bool)
      requires Valid()
      modifies this, app, app.balances, journal
      ensures Valid() && (app.balances == old(app.balances) || fresh(app.balances))
      ensures Handled(reply, stop, View()) == HandleCommand(old(View()), mail)
    {
      match mail.command {
        case SnapshotCmd =>
          reply, stop := Ok(SnapshotReply(|app.events|)), false;
        case ShutdownCmd =>
          reply, stop := Ok(ShutdownReply), true;
        case _ =>
          reply, stop := HandleEvent(mail);
      }
      RecordOutcome(reply);
    }

    // Takes the next mail off the queue and deals with it, on the way to `whole`.
    method ReceiveNext(
      rest: seq<Mail>, ghost sent: seq<Result<MarketReply, AppError>>, ghost whole: ActorRun)
      returns (reply: Result<MarketReply, AppError>, stop: bool)
      requires Valid() && rest != [] && RunsTo(sent, false, View(), rest, whole)
      modifies this, app, app.balances, journal
      ensures Valid() && (app.balances == old(app.balances) || fresh(app.balances))
      ensures RunsTo(sent + [reply], stop, View(), rest[1..], whole)
    {
      metrics := metrics.(received := Plus(metrics.received, 1));
      reply, stop := Handle(rest[0]);
      Advance(sent, old(View()), rest, Handled(reply, stop, View()), whole);
    }

    method Run(mailbox: seq<Mail>) returns (replies: seq<Result<MarketReply, AppError>>, stopped: bool)
      requires Valid()
      modifies this, app, app.balances, journal
      ensures Valid() && (app.balances == old(app.balances) || fresh(app.balances))
      ensures ActorRun(replies, stopped, View()) == RunActor(old(View()), mailbox)
    {
      ghost var whole := RunActor(View(), mailbox);
      var rest := mailbox;
      replies, stopped := [], false;
      Begins(View(), mailbox);
      while rest != [] && !stopped
        invariant Valid() && (app.balances == old(app.balances) || fresh(app.balances))
        invariant RunsTo(replies, stopped, View(), rest, whole)
        decreases |rest|
      {
        var reply;
        reply, stopped := ReceiveNext(rest, replies, whole);
        replies := replies + [reply];
        rest := rest[1..];
      }
      Ends(replies, stopped, View(), rest, whole);
    }
  }

  // With these replies sent and this mail still waiting, the run comes to `whole`.
  ghost predicate RunsTo(
    sent: seq<Result<MarketReply, AppError>>, stopped: bool, actor: Actor, rest: seq<Mail>, whole: ActorRun)
    requires actor.app.book.Ordered()
  {
    if stopped then whole == ActorRun(sent, true, actor)
    else var run := RunActor(actor, rest); whole == run.(replies := sent + run.replies)
  }

  lemma {:induction false} Begins(actor: Actor, mailbox: seq<Mail>)
    requires actor.app.book.Ordered()
    ensures RunsTo([], false, actor, mailbox, RunActor(actor, mailbox))
  {
  }

  lemma Ends(
    sent: seq<Result<MarketReply, AppError>>, stopped: bool, actor: Actor, rest: seq<Mail>, whole: ActorRun)
    requires actor.app.book.Ordered() && RunsTo(sent, stopped, actor, rest, whole) && (rest == [] || stopped)
    ensures whole == ActorRun(sent, stopped, actor)
  {
    assert sent + [] == sent;
  }

  lemma Advance(
    sent: seq<Result<MarketReply, AppError>>, actor: Actor, rest: seq<Mail>, h: Handled, whole: ActorRun)
    requires actor.app.book.Ordered() && rest != [] && RunsTo(sent, false, actor, rest, whole)
    requires h == HandleCommand(Receive(actor), rest[0])
    ensures RunsTo(sent + [h.reply], h.stop, h.actor, rest[1..], whole)
  {
  }
}
