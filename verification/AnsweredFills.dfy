/** From the mailbox to the chain: the fills an actor answers with are the ones that settle. */
module AnsweredFills {
  import opened Types
  import opened ExchangeModel
  import opened ExchangeLaws
  import opened TradeLaws
  import opened ActorModel
  import opened ActorReplies
  import opened SettlementModel
  import opened Settleability
  import opened Pipeline
  import opened Worker

  // What a new actor does with a mailbox.
  function NewRun(market: Market, mailbox: seq<Mail>): ActorRun {
    RunActor(Actor(NewApp(market), [], NO_METRICS), mailbox)
  }

  // The service serves fills from the actor's answers only, each at most once, in any order.
  ghost predicate ServesAnswers(market: Market, mailbox: seq<Mail>, work: seq<ServiceOp>) {
    var replies := NewRun(market, mailbox).replies;
    |replies| <= |mailbox| && multiset(Served(work)) <= multiset(AnsweredTrades(mailbox, replies))
  }

  lemma {:induction false} AnswersAreTheRun(market: Market, mailbox: seq<Mail>)
    ensures var out := NewRun(market, mailbox);
            && |out.replies| <= |mailbox|
            && out.actor.app == Run(market, Obeyed(mailbox, out.replies))
            && TradesIn(out.actor.app.events) == AnsweredTrades(mailbox, out.replies)
  {
    ActorIsRun(market, mailbox);
    AnsweredTradesAreTheTrades(Actor(NewApp(market), [], NO_METRICS), mailbox);
    var trades := AnsweredTrades(mailbox, NewRun(market, mailbox).replies);
    assert TradesIn([]) + trades == trades;
  }

  /** Mailbox to chain, with any pattern of journal failures, refusals and interleavings: of the fills in the actor's
      answers, the requests the worker gets accepted are exactly those between two traders under an unused id. */
  lemma {:induction false} AnswersSettle(
    d: Deployment, work: seq<ServiceOp>, market: Market, mailbox: seq<Mail>, chain: Chain, slot: nat -> U64,
    horizon: U64)
    requires ServesAnswers(market, mailbox, work)
    requires ReadyFor(d, work, NewRun(market, mailbox).actor.app, chain, slot, horizon)
    ensures var s := RunService(d.bridge, work);
            var drained := s.Trace().drained;
            && |drained| + |s.Trace().edge.queue| == |s.queued|
            && WorkedTo(d, s.Store(), NewRun(market, mailbox).actor.app.events, JustTrades(s.queued), chain,
                        s.queued[..|drained|], Work(Sends(d.program, slot), chain, drained))
  {
    AnswersAreTheRun(market, mailbox);
    ServiceSettles(d, work, market, Obeyed(mailbox, NewRun(market, mailbox).replies), chain, slot, horizon);
  }

  /** And when orders are signed before their answers are served, and no trader trades with itself, all of them
      settle. */
  lemma {:induction false} EveryAnsweredFillSettles(
    d: Deployment, work: seq<ServiceOp>, market: Market, mailbox: seq<Mail>, chain: Chain, slot: nat -> U64,
    horizon: U64)
    requires ServesAnswers(market, mailbox, work)
    requires ReadyFor(d, work, NewRun(market, mailbox).actor.app, chain, slot, horizon)
    requires RegisteredFirst(d.bridge, work) && |Served(work)| < TWO_64
    requires var events := NewRun(market, mailbox).actor.app.events;
             Mirrored(d, RunService(d.bridge, work).Store(), events, Served(work), horizon)
    requires NoSelfTrades(Served(work)) && forall id | id in chain.receipts :: id >= |Served(work)|
    requires RunService(d.bridge, work).waiting == [] && RunService(d.bridge, work).Trace().edge.queue == []
    ensures WorkedOff(d, work, NewRun(market, mailbox).actor.app.events, chain, slot)
  {
    AnswersAreTheRun(market, mailbox);
    EveryServedFillSettles(d, work, market, Obeyed(mailbox, NewRun(market, mailbox).replies), chain, slot, horizon);
  }
}
