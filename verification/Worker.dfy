/** The settlement worker, and the whole path from served fills to the chain. */
module Worker {
  import opened Types
  import opened ExchangeModel
  import opened ExchangeLaws
  import opened TradeLaws
  import opened SettlementModel
  import opened SettlementTypes
  import opened SettlementLaws
  import opened Bridge
  import opened Settleability
  import opened Pipeline

  // How the worker sends the i-th request.
  type Submitter = (Chain, SettlementRequest, nat) -> Result<Chain, ProgramError>

  // Each transaction in its slot.
  function Sends(p: Program, slot: nat -> U64): Submitter {
    (chain: Chain, r: SettlementRequest, i: nat) => Execute(p, chain, TransactionOf(r, slot(i)))
  }

  // The worker submits each request once, and goes on after a failure.
  datatype Worked = Worked(chain: Chain, accepted: seq<bool>)

  function WorkOne(w: Worked, submitted: Result<Chain, ProgramError>): Worked {
    match submitted
    case Ok(chain) => Worked(chain, w.accepted + [true])
    case Err(_) => Worked(w.chain, w.accepted + [false])
  }

  function Work(submit: Submitter, start: Chain, requests: seq<SettlementRequest>): (w: Worked)
    ensures |w.accepted| == |requests|
  {
    if requests == [] then Worked(start, [])
    else
      var n := |requests| - 1;
      var before := Work(submit, start, requests[..n]);
      WorkOne(before, submit(before.chain, requests[n], n))
  }

  lemma {:induction false} WorkPush(
    submit: Submitter, start: Chain, requests: seq<SettlementRequest>, k: nat)
    requires k < |requests|
    ensures var before := Work(submit, start, requests[..k]);
            Work(submit, start, requests[..k + 1]) == WorkOne(before, submit(before.chain, requests[k], k))
  {
    assert requests[..k + 1][..k] == requests[..k];
  }

  /** The worker's loop over the requests it has drained. */
  method SubmitRequests(submit: Submitter, start: Chain, requests: seq<SettlementRequest>) returns (w: Worked)
    ensures w == Work(submit, start, requests)
  {
    w := Worked(start, []);
    for k := 0 to |requests|
      invariant w == Work(submit, start, requests[..k])
    {
      WorkPush(submit, start, requests, k);
      w := WorkOne(w, submit(w.chain, requests[k], k));
    }
    assert requests[..|requests|] == requests;
  }

  // A fill between two traders, under an id that had no receipt when the worker started.
  predicate Settles(start: Chain, n: Numbered) {
    n.trade.TraderOn(Bid) != n.trade.TraderOn(Ask) && n.id !in start.receipts
  }

  function Settling(start: Chain, numbered: seq<Numbered>): seq<Trade> {
    if numbered == [] then []
    else
      var before, last := Settling(start, numbered[..|numbered| - 1]), numbered[|numbered| - 1];
      if Settles(start, last) then before + [last.trade] else before
  }

  lemma {:induction false} SettlingIsPart(start: Chain, numbered: seq<Numbered>)
    ensures multiset(Settling(start, numbered)) <= multiset(JustTrades(numbered))
  {
    if numbered != [] {
      var init, last := numbered[..|numbered| - 1], numbered[|numbered| - 1];
      SettlingIsPart(start, init);
      assert JustTrades(numbered) == JustTrades(init) + [last.trade];
    }
  }

  lemma {:induction false} TradesFirst(numbered: seq<Numbered>, n: nat)
    requires n <= |numbered|
    ensures multiset(JustTrades(numbered[..n])) <= multiset(JustTrades(numbered))
  {
    assert JustTrades(numbered) == JustTrades(numbered[..n]) + JustTrades(numbered[n..]);
  }

  // An id that has its receipt is refused, whatever else the request says.
  lemma UsedIdFails(p: Program, chain: Chain, r: SettlementRequest, slot: U64)
    requires r.args.settlementId in chain.receipts
    ensures Execute(p, chain, TransactionOf(r, slot)).Err?
  {
    var ix := TransactionOf(r, slot);
    assert SettlementAccounts(p, chain, ix.caller, ix.id, ix.buyer, ix.seller).Err?;
  }

  // The chain after the worker submitted the first requests.
  ghost predicate WorkedTo(
    d: Deployment, store: Store, events: seq<Event>, trades: seq<Trade>, start: Chain, numbered: seq<Numbered>,
    w: Worked) {
    && |w.accepted| == |numbered|
    && (forall i | 0 <= i < |numbered| :: w.accepted[i] <==> Settles(start, numbered[i]))
    && Progress(d, store, events, trades, start, Settling(start, numbered), w.chain)
    && w.chain.receipts.Keys == start.receipts.Keys + IdsOf(start, numbered)
  }

  function IdsOf(start: Chain, numbered: seq<Numbered>): set<nat> {
    set n | n in numbered && Settles(start, n) :: n.id
  }

  lemma RequestId(bridge: SettlementBridge, store: Store, n: Numbered, r: SettlementRequest)
    requires IsRequest(bridge, store, n, r)
    ensures r.args.settlementId == n.id
  {
    RequestMeetsRules(bridge, IntentFrom(n.trade.taker, n.trade.fill), store, n.id, 0, 0);
  }

  // Submitting a queued request is submitting its fill under its id.
  lemma RequestIsJob(d: Deployment, store: Store, chain: Chain, n: Numbered, r: SettlementRequest, slot: U64)
    requires IsRequest(d.bridge, store, n, r)
    ensures r.args.settlementId == n.id
    ensures var x := Execute(d.program, chain, TransactionOf(r, slot));
            Settleability.Submit(d, store, chain, Job(n.trade, n.id, slot))
            == match x case Ok(c) => Ok(c) case Err(e) => Err(ProgramFailed(e))
  {
    RequestId(d.bridge, store, n, r);
  }

  lemma OneIsRefused(
    d: Deployment, store: Store, app: App, trades: seq<Trade>, start: Chain, w: Worked, n: Numbered,
    r: SettlementRequest, slot: U64, horizon: U64)
    requires Reached(app) && Mirrored(d, store, app.events, trades, horizon)
    requires n.trade in trades && n.trade in TradesIn(app.events) && IsRequest(d.bridge, store, n, r)
    requires !Settles(start, n) && start.receipts.Keys <= w.chain.receipts.Keys
    ensures Execute(d.program, w.chain, TransactionOf(r, slot)).Err?
  {
    RequestIsJob(d, store, w.chain, n, r, slot);
    if n.trade.TraderOn(Bid) == n.trade.TraderOn(Ask) {
      SelfTradeNeverSettles(d, store, app, trades, w.chain, Job(n.trade, n.id, slot), horizon);
    } else {
      UsedIdFails(d.program, w.chain, r, slot);
    }
  }

  lemma IdsPush(start: Chain, numbered: seq<Numbered>, n: Numbered)
    ensures IdsOf(start, numbered + [n]) == IdsOf(start, numbered) + if Settles(start, n) then {n.id} else {}
  {
    assert forall m :: m in numbered + [n] <==> m in numbered || m == n;
  }

  lemma {:induction false} SettlingPush(start: Chain, numbered: seq<Numbered>, n: Numbered)
    ensures Settling(start, numbered + [n]) == Settling(start, numbered) + if Settles(start, n) then [n.trade] else []
  {
    assert (numbered + [n])[..|numbered|] == numbered;
  }

  lemma OneIsAccepted(
    d: Deployment, store: Store, app: App, trades: seq<Trade>, start: Chain, done: seq<Trade>, w: Worked, n: Numbered,
    r: SettlementRequest, slot: U64, horizon: U64)
    returns (chain: Chain)
    requires Reached(app) && DistinctOrders(app.events)
    requires WellDeployed(d) && Mirrored(d, store, app.events, trades, horizon) && Funded(d, start, app, trades)
    requires Progress(d, store, app.events, trades, start, done, w.chain)
    requires n.trade in trades && multiset(done + [n.trade]) <= multiset(TradesIn(app.events))
    requires n.trade.TraderOn(Bid) != n.trade.TraderOn(Ask) && n.id !in w.chain.receipts
    requires IsRequest(d.bridge, store, n, r) && slot <= horizon
    ensures Execute(d.program, w.chain, TransactionOf(r, slot)) == Ok(chain)
    ensures Progress(d, store, app.events, trades, start, done + [n.trade], chain)
    ensures chain.receipts.Keys == w.chain.receipts.Keys + {n.id}
  {
    RequestIsJob(d, store, w.chain, n, r, slot);
    chain := SubmitSettles(d, store, app, trades, start, done, w.chain, Job(n.trade, n.id, slot), horizon);
  }

  lemma {:induction false} WorkedPush(
    d: Deployment, store: Store, events: seq<Event>, trades: seq<Trade>, start: Chain, numbered: seq<Numbered>,
    w: Worked, n: Numbered, w': Worked)
    requires WorkedTo(d, store, events, trades, start, numbered, w)
    requires w'.accepted == w.accepted + [Settles(start, n)]
    requires Progress(d, store, events, trades, start,
                      Settling(start, numbered) + (if Settles(start, n) then [n.trade] else []), w'.chain)
    requires w'.chain.receipts.Keys == w.chain.receipts.Keys + if Settles(start, n) then {n.id} else {}
    ensures WorkedTo(d, store, events, trades, start, numbered + [n], w')
  {
    SettlingPush(start, numbered, n);
    IdsPush(start, numbered, n);
  }

  lemma {:induction false} SettlingFits(start: Chain, numbered: seq<Numbered>, n: Numbered, events: seq<Event>)
    requires multiset(JustTrades(numbered + [n])) <= multiset(TradesIn(events))
    ensures multiset(Settling(start, numbered) + [n.trade]) <= multiset(TradesIn(events))
    ensures n.trade in TradesIn(events)
  {
    assert JustTrades(numbered + [n]) == JustTrades(numbered) + [n.trade];
    SettlingIsPart(start, numbered);
    assert n.trade in multiset(JustTrades(numbered + [n]));
  }

  // What one more request does, whichever way it goes.
  lemma OneMoreRequest(
    d: Deployment, store: Store, app: App, trades: seq<Trade>, start: Chain, numbered: seq<Numbered>, w: Worked,
    n: Numbered, r: SettlementRequest, slot: U64, horizon: U64)
    returns (x: Result<Chain, ProgramError>)
    requires Reached(app) && DistinctOrders(app.events)
    requires WellDeployed(d) && Mirrored(d, store, app.events, trades, horizon) && Funded(d, start, app, trades)
    requires WorkedTo(d, store, app.events, trades, start, numbered, w)
    requires n.trade in trades && multiset(JustTrades(numbered + [n])) <= multiset(TradesIn(app.events))
    requires IsRequest(d.bridge, store, n, r) && slot <= horizon && n.id !in IdsOf(start, numbered)
    ensures x == Execute(d.program, w.chain, TransactionOf(r, slot))
    ensures WorkedTo(d, store, app.events, trades, start, numbered + [n], WorkOne(w, x))
  {
    SettlingFits(start, numbered, n, app.events);
    x := Execute(d.program, w.chain, TransactionOf(r, slot));
    if Settles(start, n) {
      var _ := OneIsAccepted(d, store, app, trades, start, Settling(start, numbered), w, n, r, slot, horizon);
    } else {
      OneIsRefused(d, store, app, trades, start, w, n, r, slot, horizon);
      assert Settling(start, numbered) + [] == Settling(start, numbered);
    }
    WorkedPush(d, store, app.events, trades, start, numbered, w, n, WorkOne(w, x));
  }

  // A service and a chain that are ready for each other, whatever the fills come from.
  ghost predicate ReadyFor(
    d: Deployment, work: seq<ServiceOp>, app: App, chain: Chain, slot: nat -> U64, horizon: U64) {
    var s := RunService(d.bridge, work);
    var trades := JustTrades(s.queued);
    && Steady(d.bridge, work) && DistinctOrders(app.events)
    && Mirrored(d, s.Store(), app.events, trades, horizon)
    && Funded(d, chain, app, trades) && Untouched(d, s.Store(), chain, app.events, trades)
    && WellDeployed(d) && Backed(chain) && Keyed(d.program, chain) && !chain.paused
    && forall i :: slot(i) <= horizon
  }

  // And the fills are the run's own, none served twice.
  ghost predicate ReadyToWork(
    d: Deployment, work: seq<ServiceOp>, app: App, chain: Chain, slot: nat -> U64, horizon: U64) {
    ReadyFor(d, work, app, chain, slot, horizon) && multiset(Served(work)) <= multiset(TradesIn(app.events))
  }

  lemma FreshId(start: Chain, numbered: seq<Numbered>, k: nat)
    requires DistinctIds(numbered) && k < |numbered|
    ensures numbered[k].id !in IdsOf(start, numbered[..k])
  {
  }

  // The k-th request is the one for the k-th fill, which belongs to the run and has a fresh id.
  lemma {:induction false} NextIsFit(
    bridge: SettlementBridge, store: Store, events: seq<Event>, start: Chain, requests: seq<SettlementRequest>,
    numbered: seq<Numbered>, k: nat)
    requires AreRequests(bridge, store, requests, numbered) && DistinctIds(numbered) && k < |numbered|
    requires multiset(JustTrades(numbered)) <= multiset(TradesIn(events))
    ensures numbered[k].trade in JustTrades(numbered) && IsRequest(bridge, store, numbered[k], requests[k])
    ensures multiset(JustTrades(numbered[..k] + [numbered[k]])) <= multiset(TradesIn(events))
    ensures numbered[k].id !in IdsOf(start, numbered[..k])
  {
    assert numbered[..k + 1] == numbered[..k] + [numbered[k]];
    TradesFirst(numbered, k + 1);
    FreshId(start, numbered, k);
    assert JustTrades(numbered)[k] == numbered[k].trade;
  }

  // Whatever the worker has done up to here, the next request does what it should.
  ghost predicate GoesOn(
    d: Deployment, store: Store, app: App, start: Chain, requests: seq<SettlementRequest>, numbered: seq<Numbered>,
    submit: Submitter)
    requires |requests| == |numbered|
  {
    var trades := JustTrades(numbered);
    forall w, k: nat | k < |requests| && WorkedTo(d, store, app.events, trades, start, numbered[..k], w) ::
      WorkedTo(d, store, app.events, trades, start, numbered[..k + 1], WorkOne(w, submit(w.chain, requests[k], k)))
  }

  lemma EachGoesOn(
    d: Deployment, store: Store, app: App, start: Chain, requests: seq<SettlementRequest>, numbered: seq<Numbered>,
    slot: nat -> U64, horizon: U64)
    requires Reached(app) && DistinctOrders(app.events) && WellDeployed(d)
    requires Mirrored(d, store, app.events, JustTrades(numbered), horizon)
    requires Funded(d, start, app, JustTrades(numbered))
    requires multiset(JustTrades(numbered)) <= multiset(TradesIn(app.events))
    requires AreRequests(d.bridge, store, requests, numbered) && DistinctIds(numbered)
    requires forall i :: slot(i) <= horizon
    ensures GoesOn(d, store, app, start, requests, numbered, Sends(d.program, slot))
  {
    forall w, k: nat | k < |requests| && WorkedTo(d, store, app.events, JustTrades(numbered), start, numbered[..k], w)
      ensures WorkedTo(d, store, app.events, JustTrades(numbered), start, numbered[..k + 1],
                       WorkOne(w, Sends(d.program, slot)(w.chain, requests[k], k)))
    {
      NextIsFit(d.bridge, store, app.events, start, requests, numbered, k);
      assert numbered[..k + 1] == numbered[..k] + [numbered[k]];
      var x := OneMoreRequest(d, store, app, JustTrades(numbered), start, numbered[..k], w, numbered[k], requests[k],
                              slot(k), horizon);
    }
  }

  lemma {:induction false} FirstRequests(
    d: Deployment, store: Store, app: App, start: Chain, requests: seq<SettlementRequest>, numbered: seq<Numbered>,
    submit: Submitter, n: nat)
    requires |requests| == |numbered| && GoesOn(d, store, app, start, requests, numbered, submit)
    requires Progress(d, store, app.events, JustTrades(numbered), start, [], start) && n <= |requests|
    ensures WorkedTo(d, store, app.events, JustTrades(numbered), start, numbered[..n],
                     Work(submit, start, requests[..n]))
  {
    if n > 0 {
      FirstRequests(d, store, app, start, requests, numbered, submit, n - 1);
      assert requests[..n][..n - 1] == requests[..n - 1];
    }
  }

  /** End to end, over every run and every interleaving of registrations, batches and drains: the worker's i-th request
      is accepted if and only if its fill is between two traders and its id had no receipt yet, a refusal stops nothing
      behind it, and exactly the accepted fills have moved. */
  lemma {:induction false} ServiceSettles(
    d: Deployment, work: seq<ServiceOp>, market: Market, commands: seq<Command>, chain: Chain, slot: nat -> U64,
    horizon: U64)
    requires ReadyToWork(d, work, Run(market, commands), chain, slot, horizon)
    ensures var s := RunService(d.bridge, work);
            var drained := s.Trace().drained;
            && |drained| + |s.Trace().edge.queue| == |s.queued|
            && WorkedTo(d, s.Store(), Run(market, commands).events, JustTrades(s.queued), chain,
                        s.queued[..|drained|], Work(Sends(d.program, slot), chain, drained))
  {
    var app, s := Run(market, commands), RunService(d.bridge, work);
    var t := s.Trace();
    EdgeKeepsQueue(s.ops);
    QueueIsRequests(d.bridge, work);
    QueuedIdsDistinct(d.bridge, work);
    QueuedArePart(d.bridge, work);
    NothingDone(d, s.Store(), app.events, JustTrades(s.queued), chain);
    assert t.drained == t.queued[..|t.drained|];
    EachGoesOn(d, s.Store(), app, chain, t.queued, s.queued, slot, horizon);
    FirstRequests(d, s.Store(), app, chain, t.queued, s.queued, Sends(d.program, slot), |t.drained|);
  }

  lemma {:induction false} AllSettling(start: Chain, numbered: seq<Numbered>)
    requires forall i | 0 <= i < |numbered| :: Settles(start, numbered[i])
    ensures Settling(start, numbered) == JustTrades(numbered)
  {
    if numbered != [] {
      var init, last := numbered[..|numbered| - 1], numbered[|numbered| - 1];
      AllSettling(start, init);
      assert JustTrades(numbered) == JustTrades(init) + [last.trade];
    }
  }

  // With everything drained and every request one that settles, everything has settled.
  lemma {:induction false} AllWorked(
    d: Deployment, store: Store, events: seq<Event>, trades: seq<Trade>, start: Chain, numbered: seq<Numbered>,
    w: Worked)
    requires WorkedTo(d, store, events, trades, start, numbered, w)
    requires forall i | 0 <= i < |numbered| :: Settles(start, numbered[i])
    ensures forall i | 0 <= i < |w.accepted| :: w.accepted[i]
    ensures Progress(d, store, events, trades, start, Settling(start, numbered), w.chain)
  {
  }

  lemma BatchBridges(
    d: Deployment, app: App, trades: seq<Trade>, final: Store, store: Store, b: Batch, horizon: U64)
    requires Reached(app) && DistinctOrders(app.events) && Mirrored(d, final, app.events, trades, horizon)
    requires Extends(final, store) && Known(store, b.fills) && (b.fills != [] ==> b.first + |b.fills| <= TWO_64)
    requires forall t | t in b.Fills() :: t in trades && t in TradesIn(app.events)
    ensures b.Requests(d.bridge, store).Ok?
  {
    var intents := BatchFrom(b.command, b.taker, b.fills).intents;
    forall i | 0 <= i < |b.fills| ensures RequestFor(d.bridge, intents[i], store, b.first, i).Ok? {
      var t := b.Fills()[i];
      assert t in b.Fills();
      TradeBridges(d, final, app, trades, t, b.first + i, 0, horizon);
      SameRequest(d.bridge, intents[i], store, final, b.first, i, b.first + i);
    }
    BatchIsComplete(d.bridge, intents, store, b.first, |b.fills|);
  }

  lemma {:induction false} RegisteredIsKept(
    d: Deployment, app: App, trades: seq<Trade>, final: Store, work: seq<ServiceOp>, horizon: U64)
    requires Reached(app) && DistinctOrders(app.events) && Mirrored(d, final, app.events, trades, horizon)
    requires Steady(d.bridge, work) && Extends(final, RunService(d.bridge, work).Store())
    requires RegisteredFirst(d.bridge, work) && |Served(work)| < TWO_64
    requires forall t | t in Served(work) :: t in trades && t in TradesIn(app.events)
    ensures NothingLost(d.bridge, work)
  {
    if work != [] {
      var init, op := work[..|work| - 1], work[|work| - 1];
      var s := RunService(d.bridge, init);
      ActOnEdge(d.bridge, s, op);
      assert Extends(final, s.Store());
      RegisteredIsKept(d, app, trades, final, init, horizon);
      IdsCountFills(d.bridge, init);
      if op.Enqueue? && op.k < |s.waiting| {
        WaitingKnown(d.bridge, init);
        WaitingWereServed(d.bridge, init, op.k);
        WaitingHaveIds(d.bridge, init, op.k);
        BatchBridges(d, app, trades, final, s.Store(), s.waiting[op.k], horizon);
      }
    }
  }

  /** Signed before they are served, no fill of the run is lost between the exchange and the queue. */
  lemma {:induction false} NoServedFillIsLost(
    d: Deployment, work: seq<ServiceOp>, market: Market, commands: seq<Command>, horizon: U64)
    requires Steady(d.bridge, work) && RegisteredFirst(d.bridge, work) && |Served(work)| < TWO_64
    requires DistinctOrders(Run(market, commands).events)
    requires multiset(Served(work)) <= multiset(TradesIn(Run(market, commands).events))
    requires Mirrored(d, RunService(d.bridge, work).Store(), Run(market, commands).events, Served(work), horizon)
    ensures NothingLost(d.bridge, work)
  {
    var app := Run(market, commands);
    forall t | t in Served(work) ensures t in TradesIn(app.events) {
      assert t in multiset(Served(work));
    }
    RegisteredIsKept(d, app, Served(work), RunService(d.bridge, work).Store(), work, horizon);
  }

  lemma {:induction false} QueuedSettle(bridge: SettlementBridge, work: seq<ServiceOp>, chain: Chain)
    requires NothingLost(bridge, work) && RunService(bridge, work).waiting == []
    requires NoSelfTrades(Served(work)) && forall id | id in chain.receipts :: id >= |Served(work)|
    ensures var queued := RunService(bridge, work).queued;
            && (forall i | 0 <= i < |queued| :: Settles(chain, queued[i]))
            && Settling(chain, queued) == JustTrades(queued)
  {
    var s := RunService(bridge, work);
    AllServedAreQueued(bridge, work);
    IdsCountFills(bridge, work);
    forall i | 0 <= i < |s.queued| ensures Settles(chain, s.queued[i]) {
      IdIsHandedOut(bridge, work, i);
      assert JustTrades(s.queued)[i] in multiset(JustTrades(s.queued));
      assert s.queued[i].trade in multiset(Served(work));
    }
    AllSettling(chain, s.queued);
  }

  // Every served fill was submitted, accepted and moved.
  ghost predicate WorkedOff(
    d: Deployment, work: seq<ServiceOp>, events: seq<Event>, chain: Chain, slot: nat -> U64) {
    var s := RunService(d.bridge, work);
    var w := Work(Sends(d.program, slot), chain, s.Trace().drained);
    && multiset(JustTrades(s.queued)) == multiset(Served(work))
    && |w.accepted| == |s.queued| && (forall i | 0 <= i < |w.accepted| :: w.accepted[i])
    && Progress(d, s.Store(), events, JustTrades(s.queued), chain, JustTrades(s.queued), w.chain)
  }

  /** So a service whose orders are signed before they are served, on a chain without any of its ids, settles all fills
      between different traders: once no handler waits and the queue is drained, every served fill was submitted and
      accepted, and has moved. */
  lemma {:induction false} EveryServedFillSettles(
    d: Deployment, work: seq<ServiceOp>, market: Market, commands: seq<Command>, chain: Chain, slot: nat -> U64,
    horizon: U64)
    requires RegisteredFirst(d.bridge, work) && |Served(work)| < TWO_64
    requires Mirrored(d, RunService(d.bridge, work).Store(), Run(market, commands).events, Served(work), horizon)
    requires ReadyToWork(d, work, Run(market, commands), chain, slot, horizon)
    requires NoSelfTrades(Served(work)) && forall id | id in chain.receipts :: id >= |Served(work)|
    requires RunService(d.bridge, work).waiting == [] && RunService(d.bridge, work).Trace().edge.queue == []
    ensures WorkedOff(d, work, Run(market, commands).events, chain, slot)
  {
    var app, s := Run(market, commands), RunService(d.bridge, work);
    var drained := s.Trace().drained;
    NoServedFillIsLost(d, work, market, commands, horizon);
    AllServedAreQueued(d.bridge, work);
    QueuedSettle(d.bridge, work, chain);
    ServiceSettles(d, work, market, commands, chain, slot, horizon);
    assert s.queued[..|drained|] == s.queued;
    AllWorked(d, s.Store(), app.events, JustTrades(s.queued), chain, s.queued,
              Work(Sends(d.program, slot), chain, drained));
  }

  // A request is accepted only under an id without receipt, and then its id has one.
  ghost predicate RecordsOnce(submit: Submitter) {
    forall chain, r, i ::
      match submit(chain, r, i)
      case Ok(chain') =>
        && r.args.settlementId !in chain.receipts
        && chain'.receipts.Keys == chain.receipts.Keys + {r.args.settlementId}
      case Err(_) => true
  }

  lemma ProgramRecordsOnce(p: Program, slot: nat -> U64)
    ensures RecordsOnce(Sends(p, slot))
  {
    forall chain, r, i: nat | Sends(p, slot)(chain, r, i).Ok?
      ensures r.args.settlementId !in chain.receipts
      ensures Sends(p, slot)(chain, r, i).value.receipts.Keys == chain.receipts.Keys + {r.args.settlementId}
    {
      SettlementTransfers(p, chain, TransactionOf(r, slot(i)));
    }
  }

  lemma {:induction false} ReceiptsStay(submit: Submitter, start: Chain, requests: seq<SettlementRequest>)
    requires RecordsOnce(submit)
    ensures start.receipts.Keys <= Work(submit, start, requests).chain.receipts.Keys
  {
    if requests != [] {
      ReceiptsStay(submit, start, requests[..|requests| - 1]);
    }
  }

  // Only an unused id is accepted, and then it is used.
  lemma {:induction false} AcceptedOnce(submit: Submitter, start: Chain, requests: seq<SettlementRequest>, j: nat)
    requires RecordsOnce(submit) && j < |requests| && Work(submit, start, requests).accepted[j]
    ensures requests[j].args.settlementId !in start.receipts
    ensures requests[j].args.settlementId in Work(submit, start, requests).chain.receipts
  {
    var n := |requests| - 1;
    if j < n {
      assert requests[..n][j] == requests[j];
      AcceptedOnce(submit, start, requests[..n], j);
    } else {
      ReceiptsStay(submit, start, requests[..n]);
    }
  }

  // A request under an id that an earlier worker got accepted is refused.
  lemma {:induction false} RepeatFails(
    submit: Submitter, submit': Submitter, chain: Chain, one: seq<SettlementRequest>, two: seq<SettlementRequest>,
    i: nat, j: nat)
    requires RecordsOnce(submit) && RecordsOnce(submit') && i < |one| && j < |two|
    requires one[i].args.settlementId == two[j].args.settlementId
    ensures var w := Work(submit, chain, one);
            w.accepted[i] ==> !Work(submit', w.chain, two).accepted[j]
  {
    var w := Work(submit, chain, one);
    if w.accepted[i] && Work(submit', w.chain, two).accepted[j] {
      AcceptedOnce(submit, chain, one, i);
      AcceptedOnce(submit', w.chain, two, j);
    }
  }

  lemma {:induction false} FindDrained(bridge: SettlementBridge, work: seq<ServiceOp>, id: nat) returns (i: nat)
    requires Steady(bridge, work) && NothingLost(bridge, work) && id < RunService(bridge, work).NextId()
    requires RunService(bridge, work).waiting == [] && RunService(bridge, work).Trace().edge.queue == []
    ensures i < |RunService(bridge, work).Trace().drained|
    ensures RunService(bridge, work).Trace().drained[i].args.settlementId == id
  {
    var s := RunService(bridge, work);
    AllServedAreQueued(bridge, work);
    QueueIsRequests(bridge, work);
    EdgeKeepsQueue(s.ops);
    assert IsUsed(s.queued, id);
    var n :| n in s.queued && n.id == id;
    i :| 0 <= i < |s.queued| && s.queued[i] == n;
    assert s.Trace().drained == s.Trace().queued;
    assert IsRequest(bridge, s.Store(), s.queued[i], s.Trace().queued[i]);
    RequestId(bridge, s.Store(), n, s.Trace().queued[i]);
  }

  // Both services submitted a request under this id, and at most one of the two was accepted.
  ghost predicate RefusedOnce(
    p: Program, chain: Chain, one: seq<SettlementRequest>, slot: nat -> U64, two: seq<SettlementRequest>,
    slot': nat -> U64, id: nat) {
    exists i, j ::
      && 0 <= i < |one| && 0 <= j < |two| && one[i].args.settlementId == id == two[j].args.settlementId
      && var w := Work(Sends(p, slot), chain, one);
         w.accepted[i] ==> !Work(Sends(p, slot'), w.chain, two).accepted[j]
  }

  /** The ids are counted in memory only. A service started again on the same chain hands out every id again, up to what
      both have handed out, and where the earlier request was accepted the later one is refused. */
  lemma {:induction false} RestartRepeatsIds(
    p: Program, bridge: SettlementBridge, chain: Chain, first: seq<ServiceOp>, slot: nat -> U64,
    second: seq<ServiceOp>, slot': nat -> U64, id: nat)
    requires Steady(bridge, first) && NothingLost(bridge, first)
    requires Steady(bridge, second) && NothingLost(bridge, second)
    requires RunService(bridge, first).waiting == [] && RunService(bridge, first).Trace().edge.queue == []
    requires RunService(bridge, second).waiting == [] && RunService(bridge, second).Trace().edge.queue == []
    requires id < RunService(bridge, first).NextId() && id < RunService(bridge, second).NextId()
    ensures RefusedOnce(p, chain, RunService(bridge, first).Trace().drained, slot,
                        RunService(bridge, second).Trace().drained, slot', id)
  {
    var one, two := RunService(bridge, first).Trace().drained, RunService(bridge, second).Trace().drained;
    var i := FindDrained(bridge, first, id);
    var j := FindDrained(bridge, second, id);
    ProgramRecordsOnce(p, slot);
    ProgramRecordsOnce(p, slot');
    RepeatFails(Sends(p, slot), Sends(p, slot'), chain, one, two, i, j);
  }
}
