/** A service that meets every premise of the end-to-end theorem, from the two registrations to the drained queue. */
module ServiceExample {
  import opened Types
  import opened ExchangeLaws
  import opened TradeLaws
  import opened SettlementModel
  import opened Bridge
  import opened Settleability
  import opened SettleabilityExample
  import opened Pipeline
  import opened Worker

  // What the example needs to know after some steps.
  predicate After(bridge: SettlementBridge, work: seq<ServiceOp>, store: Store, waiting: nat, served: seq<Trade>) {
    && Steady(bridge, work) && RegisteredFirst(bridge, work) && Served(work) == served
    && RunService(bridge, work).Store() == store && |RunService(bridge, work).waiting| == waiting
  }

  lemma {:induction false} OneMoreRegister(
    bridge: SettlementBridge, work: seq<ServiceOp>, store: Store, served: seq<Trade>, id: OrderId, order: StoredOrder)
    requires After(bridge, work, store, 0, served) && id !in store
    ensures After(bridge, work + [Register(id, order)], store[id := order], 0, served)
  {
    assert (work + [Register(id, order)])[..|work|] == work;
    ActOnEdge(bridge, RunService(bridge, work), Register(id, order));
  }

  lemma {:induction false} OneMoreNumber(
    bridge: SettlementBridge, work: seq<ServiceOp>, store: Store, served: seq<Trade>, op: ServiceOp)
    requires After(bridge, work, store, 0, served)
    requires op.Number? && Known(store, op.fills) && GetsIds(RunService(bridge, work), op)
    ensures After(bridge, work + [op], store, 1, served + TradesOf(op.taker, op.fills))
  {
    assert (work + [op])[..|work|] == work;
    ActOnEdge(bridge, RunService(bridge, work), op);
  }

  lemma {:induction false} OneMoreEnqueue(
    bridge: SettlementBridge, work: seq<ServiceOp>, store: Store, served: seq<Trade>)
    requires After(bridge, work, store, 1, served)
    ensures After(bridge, work + [Enqueue(0)], store, 0, served)
  {
    assert (work + [Enqueue(0)])[..|work|] == work;
    ActOnEdge(bridge, RunService(bridge, work), Enqueue(0));
  }

  lemma {:induction false} OneMoreDrain(
    bridge: SettlementBridge, work: seq<ServiceOp>, store: Store, served: seq<Trade>)
    requires After(bridge, work, store, 0, served)
    ensures After(bridge, work + [Drain], store, 0, served)
    ensures RunService(bridge, work + [Drain]).Trace().edge.queue == []
  {
    assert (work + [Drain])[..|work|] == work;
    ActOnEdge(bridge, RunService(bridge, work), Drain);
  }

  // Two registrations, the two steps of the batch that needs them, and the worker.
  function SmallWork(i: OrderId, a: StoredOrder, j: OrderId, b: StoredOrder, op: ServiceOp): seq<ServiceOp> {
    [] + [Register(i, a)] + [Register(j, b)] + [op] + [Enqueue(0)] + [Drain]
  }

  lemma {:induction false} TwoRegistered(
    bridge: SettlementBridge, i: OrderId, a: StoredOrder, j: OrderId, b: StoredOrder)
    requires i != j
    ensures var work := [] + [Register(i, a)] + [Register(j, b)];
            After(bridge, work, map[i := a, j := b], 0, []) && RunService(bridge, work).NextId() == 0
  {
    var none: Store := map[];
    OneMoreRegister(bridge, [], none, [], i, a);
    OneMoreRegister(bridge, [] + [Register(i, a)], none[i := a], [], j, b);
    assert none[i := a][j := b] == map[i := a, j := b];
    IdsCountFills(bridge, [] + [Register(i, a)] + [Register(j, b)]);
  }

  lemma {:induction false} OneBatch(bridge: SettlementBridge, work: seq<ServiceOp>, store: Store, op: ServiceOp)
    requires After(bridge, work, store, 0, []) && op.Number? && Known(store, op.fills)
    requires GetsIds(RunService(bridge, work), op)
    ensures After(bridge, work + [op] + [Enqueue(0)] + [Drain], store, 0, TradesOf(op.taker, op.fills))
    ensures RunService(bridge, work + [op] + [Enqueue(0)] + [Drain]).Trace().edge.queue == []
  {
    var trades := TradesOf(op.taker, op.fills);
    OneMoreNumber(bridge, work, store, [], op);
    assert [] + trades == trades;
    OneMoreEnqueue(bridge, work + [op], store, trades);
    OneMoreDrain(bridge, work + [op] + [Enqueue(0)], store, trades);
  }

  lemma {:induction false} SmallService(
    bridge: SettlementBridge, i: OrderId, a: StoredOrder, j: OrderId, b: StoredOrder, op: ServiceOp)
    requires i != j && op.Number? && 0 < |op.fills| < TWO_64 && Known(map[i := a, j := b], op.fills)
    ensures After(bridge, SmallWork(i, a, j, b, op), map[i := a, j := b], 0, TradesOf(op.taker, op.fills))
    ensures RunService(bridge, SmallWork(i, a, j, b, op)).Trace().edge.queue == []
  {
    TwoRegistered(bridge, i, a, j, b);
    OneBatch(bridge, [] + [Register(i, a)] + [Register(j, b)], map[i := a, j := b], op);
  }

  function TheWork(): seq<ServiceOp> {
    SmallWork(1, Signed(Sale()), 2, Signed(Purchase()), Number(4, Purchase(), [TheFill()]))
  }

  function EverySlot(): nat -> U64 {
    (i: nat) => 100
  }

  lemma TheQueueIsDrained()
    ensures RunService(TheDeployment().bridge, TheWork()).Trace().edge.queue == []
    ensures After(TheDeployment().bridge, TheWork(), TheStore(), 0, TradesOfJobs(TheJobs()))
  {
    SmallService(TheDeployment().bridge, 1, Signed(Sale()), 2, Signed(Purchase()),
                 Number(4, Purchase(), [TheFill()]));
    TheTrades();
    assert TradesOf(Purchase(), [TheFill()]) == [Trade(Purchase(), TheFill())];
  }

  lemma {:induction false} TheQueueIsServed()
    ensures JustTrades(RunService(TheDeployment().bridge, TheWork()).queued) == TradesOfJobs(TheJobs())
  {
    var s := RunService(TheDeployment().bridge, TheWork());
    TheRun();
    TheJobIsFair();
    TheQueueIsDrained();
    OrdersAreMirrored();
    OrdersAreDistinct();
    NoServedFillIsLost(TheDeployment(), TheWork(), TheMarket(), TheCommands(), 100);
    AllServedAreQueued(TheDeployment().bridge, TheWork());
    SameSingle(JustTrades(s.queued), TradesOfJobs(TheJobs()));
  }

  lemma SameSingle(s: seq<Trade>, t: seq<Trade>)
    requires multiset(s) == multiset(t) && |t| == 1
    ensures s == t
  {
    assert |s| == |multiset(s)| == |multiset(t)| == 1;
    assert s[0] in multiset(t);
  }

  lemma {:induction false} TheServiceIsReady()
    ensures var app := Run(TheMarket(), TheCommands());
            && ReadyToWork(TheDeployment(), TheWork(), app, TheChain(), EverySlot(), 100)
            && Mirrored(TheDeployment(), TheStore(), app.events, Served(TheWork()), 100)
  {
    TheRun();
    TheJobIsFair();
    TheQueueIsDrained();
    TheQueueIsServed();
    FundsSuffice(Run(TheMarket(), TheCommands()));
    FundsAreBacked();
    ChainIsKeyed();
    OrdersAreMirrored();
    OrdersAreDistinct();
    IsWellDeployed();
  }

  lemma {:induction false} OneIsServed()
    ensures NoSelfTrades(Served(TheWork())) && |Served(TheWork())| == 1
  {
    TheQueueIsDrained();
    TheJobIsFair();
  }

  /** The one fill of the run is queued, drained and settled. */
  lemma {:induction false} TheServiceSettles()
    ensures WorkedOff(TheDeployment(), TheWork(), Run(TheMarket(), TheCommands()).events, TheChain(), EverySlot())
  {
    OneIsServed();
    TheQueueIsDrained();
    TheServiceIsReady();
    EveryServedFillSettles(TheDeployment(), TheWork(), TheMarket(), TheCommands(), TheChain(), EverySlot(), 100);
  }

  // One of these requests was not accepted.
  ghost predicate LosesOne(p: Program, chain: Chain, requests: seq<SettlementRequest>, slot: nat -> U64) {
    exists j :: 0 <= j < |requests| && !Work(Sends(p, slot), chain, requests).accepted[j]
  }

  lemma {:induction false} RepeatedIsLost(
    p: Program, chain: Chain, one: seq<SettlementRequest>, slot: nat -> U64, two: seq<SettlementRequest>,
    slot': nat -> U64, id: nat)
    requires RefusedOnce(p, chain, one, slot, two, slot', id)
    requires forall i | 0 <= i < |one| :: Work(Sends(p, slot), chain, one).accepted[i]
    ensures LosesOne(p, Work(Sends(p, slot), chain, one).chain, two, slot')
  {
    var w := Work(Sends(p, slot), chain, one);
    var i, j :|
      && 0 <= i < |one| && 0 <= j < |two| && one[i].args.settlementId == id == two[j].args.settlementId
      && (w.accepted[i] ==> !Work(Sends(p, slot'), w.chain, two).accepted[j]);
  }

  lemma {:induction false} NothingIsLost()
    ensures NothingLost(TheDeployment().bridge, TheWork())
    ensures RunService(TheDeployment().bridge, TheWork()).NextId() == 1
  {
    TheRun();
    TheJobIsFair();
    TheQueueIsDrained();
    OrdersAreMirrored();
    OrdersAreDistinct();
    NoServedFillIsLost(TheDeployment(), TheWork(), TheMarket(), TheCommands(), 100);
    IdsCountFills(TheDeployment().bridge, TheWork());
    OneIsServed();
  }

  /** And after it, whatever a restarted service serves and bridges, one of its requests is refused. */
  lemma {:induction false} RestartLosesOne(second: seq<ServiceOp>, slot: nat -> U64)
    requires Steady(TheDeployment().bridge, second) && NothingLost(TheDeployment().bridge, second)
    requires var s := RunService(TheDeployment().bridge, second);
             s.waiting == [] && s.Trace().edge.queue == [] && s.NextId() > 0
    ensures var p, bridge := TheDeployment().program, TheDeployment().bridge;
            LosesOne(p, Work(Sends(p, EverySlot()), TheChain(), RunService(bridge, TheWork()).Trace().drained).chain,
                     RunService(bridge, second).Trace().drained, slot)
  {
    var p, bridge := TheDeployment().program, TheDeployment().bridge;
    var one, two := RunService(bridge, TheWork()).Trace().drained, RunService(bridge, second).Trace().drained;
    TheQueueIsDrained();
    NothingIsLost();
    TheServiceSettles();
    RestartRepeatsIds(p, bridge, TheChain(), TheWork(), EverySlot(), second, slot, 0);
    RepeatedIsLost(p, TheChain(), one, EverySlot(), two, slot, 0);
  }
}
