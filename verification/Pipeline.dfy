/** The service around the edge state: batches are numbered, bridged, queued and drained, in any interleaving. */
module Pipeline {
  import opened Types
  import opened Orders
  import opened Matching
  import opened TradeLaws
  import opened Bridge
  import opened Sums

  // The steps of the handlers, which run side by side: a signed order is registered; a placed order's fills get their
  // ids; one of the batches that have ids is bridged and queued; the worker takes the queue.
  datatype ServiceOp =
    | Register(id: OrderId, order: StoredOrder)
    | Number(command: CommandId, taker: Order, fills: seq<Fill>)
    | Enqueue(k: nat)
    | Drain

  datatype Numbered = Numbered(trade: Trade, id: nat)

  function NumberedFrom(trades: seq<Trade>, first: nat): seq<Numbered> {
    seq(|trades|, i requires 0 <= i < |trades| => Numbered(trades[i], first + i))
  }

  function JustTrades(numbered: seq<Numbered>): seq<Trade> {
    seq(|numbered|, i requires 0 <= i < |numbered| => numbered[i].trade)
  }

  // A handler between the two steps: its fills have ids, and their requests are not yet built.
  datatype Batch = Batch(command: CommandId, taker: Order, fills: seq<Fill>, first: U64) {
    function Fills(): seq<Trade> {
      TradesOf(taker, fills)
    }

    function Requests(bridge: SettlementBridge, store: Store): Result<seq<SettlementRequest>, BridgeError> {
      BridgeFirst(bridge, BatchFrom(command, taker, fills).intents, store, first, |fills|)
    }
  }

  // What was done to the edge state, the handlers in between, and the fills whose requests were queued.
  datatype Service = Service(ops: seq<EdgeOp>, waiting: seq<Batch>, queued: seq<Numbered>) {
    function Trace(): EdgeTrace {
      EdgeRun(ops)
    }

    function Store(): Store {
      Trace().edge.store
    }

    function NextId(): U64 {
      Trace().edge.nextId
    }

    function Do(op: EdgeOp): Service {
      this.(ops := ops + [op])
    }
  }

  function Without(waiting: seq<Batch>, k: nat): seq<Batch>
    requires k < |waiting|
  {
    waiting[..k] + waiting[k + 1..]
  }

  // An order without fills gets no ids; a batch that cannot be bridged is dropped with the ids it was given.
  function Act(bridge: SettlementBridge, s: Service, op: ServiceOp): Service {
    match op
    case Register(id, order) => s.Do(StoreOrder(id, order))
    case Drain => s.Do(DrainRequests)
    case Number(command, taker, fills) =>
      if !GetsIds(s, op) then s
      else s.Do(AllocateIds(|fills|)).(waiting := s.waiting + [Batch(command, taker, fills, s.NextId())])
    case Enqueue(k) =>
      if k >= |s.waiting| then s
      else
        var rest := s.(waiting := Without(s.waiting, k));
        match s.waiting[k].Requests(bridge, s.Store())
        case Ok(requests) =>
          rest.Do(QueueRequests(requests)).(queued := s.queued + NumberedFrom(s.waiting[k].Fills(), s.waiting[k].first))
        case Err(_) => rest
  }

  predicate GetsIds(s: Service, op: ServiceOp) {
    op.Number? && |op.fills| < TWO_64 && Allocate(s.NextId(), |op.fills|) == Ok(Some(s.NextId()))
  }

  predicate Bridges(bridge: SettlementBridge, s: Service, op: ServiceOp) {
    op.Enqueue? && op.k < |s.waiting| && s.waiting[op.k].Requests(bridge, s.Store()).Ok?
  }

  predicate Drops(bridge: SettlementBridge, s: Service, op: ServiceOp) {
    op.Enqueue? && op.k < |s.waiting| && !Bridges(bridge, s, op)
  }

  function RunService(bridge: SettlementBridge, work: seq<ServiceOp>): Service {
    if work == [] then Service([], [], [])
    else Act(bridge, RunService(bridge, work[..|work| - 1]), work[|work| - 1])
  }

  function Served(work: seq<ServiceOp>): seq<Trade> {
    if work == [] then []
    else
      var before, op := Served(work[..|work| - 1]), work[|work| - 1];
      if op.Number? then before + TradesOf(op.taker, op.fills) else before
  }

  lemma {:induction false} DoIsStep(s: Service, op: EdgeOp)
    ensures s.Do(op).Trace() == EdgeStep(s.Trace(), op)
  {
    assert s.Do(op).ops[..|s.ops|] == s.ops;
  }

  // The requests a step puts into the queue.
  function Added(bridge: SettlementBridge, s: Service, op: ServiceOp): seq<SettlementRequest> {
    if Bridges(bridge, s, op) then s.waiting[op.k].Requests(bridge, s.Store()).value else []
  }

  lemma NumberOnEdge(bridge: SettlementBridge, s: Service, op: ServiceOp)
    requires op.Number?
    ensures var t, t' := s.Trace(), Act(bridge, s, op).Trace();
            && t'.edge == t.edge.(nextId := t.edge.nextId + if GetsIds(s, op) then |op.fills| else 0)
            && t'.queued == t.queued
  {
    if GetsIds(s, op) {
      DoIsStep(s, AllocateIds(|op.fills|));
    }
  }

  lemma EnqueueOnEdge(bridge: SettlementBridge, s: Service, op: ServiceOp)
    requires op.Enqueue?
    ensures var t, t' := s.Trace(), Act(bridge, s, op).Trace();
            && t'.edge == t.edge.(queue := t.edge.queue + Added(bridge, s, op))
            && t'.queued == t.queued + Added(bridge, s, op)
  {
    var t, s' := s.Trace(), Act(bridge, s, op);
    if Bridges(bridge, s, op) {
      DoIsStep(s, QueueRequests(Added(bridge, s, op)));
      assert s'.ops == s.Do(QueueRequests(Added(bridge, s, op))).ops;
    } else {
      assert s'.ops == s.ops && t.edge.queue + [] == t.edge.queue && t.queued + [] == t.queued;
    }
  }

  // What one step does to the edge state.
  lemma ActOnEdge(bridge: SettlementBridge, s: Service, op: ServiceOp)
    ensures var t, t' := s.Trace(), Act(bridge, s, op).Trace();
            match op
            case Register(id, order) => t' == EdgeStep(t, StoreOrder(id, order))
            case Drain => t' == EdgeStep(t, DrainRequests)
            case Number(_, _, fills) =>
              && t'.edge == t.edge.(nextId := t.edge.nextId + if GetsIds(s, op) then |fills| else 0)
              && t'.queued == t.queued
            case Enqueue(_) =>
              && t'.edge == t.edge.(queue := t.edge.queue + Added(bridge, s, op))
              && t'.queued == t.queued + Added(bridge, s, op)
  {
    match op
    case Register(id, order) => DoIsStep(s, StoreOrder(id, order));
    case Drain => DoIsStep(s, DrainRequests);
    case Number(_, _, _) => NumberOnEdge(bridge, s, op);
    case Enqueue(_) => EnqueueOnEdge(bridge, s, op);
  }

  // A handler that runs alone takes both steps, one right after the other.
  function Alone(bridge: SettlementBridge, s: Service, op: ServiceOp): Service {
    if GetsIds(s, op) then Act(bridge, Act(bridge, s, op), Enqueue(|s.waiting|)) else s
  }

  lemma AloneOnEdge(bridge: SettlementBridge, s: Service, op: ServiceOp)
    requires GetsIds(s, op)
    ensures var edge := s.Trace().edge;
            var r := Batch(op.command, op.taker, op.fills, edge.nextId).Requests(bridge, edge.store);
            Alone(bridge, s, op).Trace().edge
            == edge.(nextId := edge.nextId + |op.fills|, queue := edge.queue + if r.Ok? then r.value else [])
  {
    var s', k := Act(bridge, s, op), |s.waiting|;
    NumberOnEdge(bridge, s, op);
    EnqueueOnEdge(bridge, s', Enqueue(k));
    assert s'.waiting[k] == Batch(op.command, op.taker, op.fills, s.NextId());
  }

  /** The handler itself, on the edge state. */
  method QueueSettlementRequests(
    edge: SettlementEdgeState, bridge: SettlementBridge, command: CommandId, taker: Order, fills: seq<Fill>,
    ghost s: Service)
    requires s.Trace().edge == edge.View()
    modifies edge
    ensures edge.View() == Alone(bridge, s, Number(command, taker, fills)).Trace().edge
  {
    if fills == [] || |fills| >= TWO_64 {
      return;
    }
    var ids := edge.AllocateSettlementIds(|fills|);
    match ids
    case Ok(Some(first)) =>
      AloneOnEdge(bridge, s, Number(command, taker, fills));
      var requests := RequestsFromBatch(bridge, BatchFrom(command, taker, fills), edge.signedOrders, first);
      if requests.Ok? {
        edge.QueueSettlementRequests(requests.value);
      }
    case _ =>
  }

  // A registered order is never replaced by a different one.
  predicate Steady(bridge: SettlementBridge, work: seq<ServiceOp>) {
    work != [] ==>
      && Steady(bridge, work[..|work| - 1])
      && var store, op := RunService(bridge, work[..|work| - 1]).Store(), work[|work| - 1];
         op.Register? && op.id in store ==> store[op.id] == op.order
  }

  predicate Extends(store': Store, store: Store) {
    forall id | id in store :: id in store' && store'[id] == store[id]
  }

  // Only the two orders of an intent matter to its request, and only the sum of first id and index.
  lemma SameRequest(
    bridge: SettlementBridge, intent: SettlementIntent, store: Store, store': Store, first: U64, index: nat, id: U64)
    requires Extends(store', store) && first + index == id
    requires intent.makerOrder in store && intent.takerOrder in store
    ensures RequestFor(bridge, intent, store, first, index) == RequestFor(bridge, intent, store', id, 0)
  {
  }

  predicate IsRequest(bridge: SettlementBridge, store: Store, n: Numbered, r: SettlementRequest) {
    n.id < TWO_64 && RequestFor(bridge, IntentFrom(n.trade.taker, n.trade.fill), store, n.id, 0) == Ok(r)
  }

  // The i-th request is the one for the i-th fill.
  predicate AreRequests(
    bridge: SettlementBridge, store: Store, requests: seq<SettlementRequest>, numbered: seq<Numbered>) {
    |requests| == |numbered| && forall i | 0 <= i < |numbered| :: IsRequest(bridge, store, numbered[i], requests[i])
  }

  lemma RequestStays(bridge: SettlementBridge, store: Store, store': Store, n: Numbered, r: SettlementRequest)
    requires Extends(store', store) && IsRequest(bridge, store, n, r)
    ensures IsRequest(bridge, store', n, r)
  {
    SameRequest(bridge, IntentFrom(n.trade.taker, n.trade.fill), store, store', n.id, 0, n.id);
  }

  lemma RequestsStay(
    bridge: SettlementBridge, store: Store, store': Store, requests: seq<SettlementRequest>, numbered: seq<Numbered>)
    requires AreRequests(bridge, store, requests, numbered) && Extends(store', store)
    ensures AreRequests(bridge, store', requests, numbered)
  {
    forall i | 0 <= i < |numbered| ensures IsRequest(bridge, store', numbered[i], requests[i]) {
      RequestStays(bridge, store, store', numbered[i], requests[i]);
    }
  }

  lemma RequestsJoin(
    bridge: SettlementBridge, store: Store, front: seq<SettlementRequest>, numbered: seq<Numbered>,
    back: seq<SettlementRequest>, more: seq<Numbered>)
    requires AreRequests(bridge, store, front, numbered) && AreRequests(bridge, store, back, more)
    ensures AreRequests(bridge, store, front + back, numbered + more)
  {
    var requests, all, k := front + back, numbered + more, |numbered|;
    forall i | 0 <= i < |all| ensures IsRequest(bridge, store, all[i], requests[i]) {
      if i < k {
        assert all[i] == numbered[i] && requests[i] == front[i];
      } else {
        assert all[i] == more[i - k] && requests[i] == back[i - k];
      }
    }
  }

  lemma BatchRequests(bridge: SettlementBridge, store: Store, b: Batch)
    requires b.Requests(bridge, store).Ok?
    ensures AreRequests(bridge, store, b.Requests(bridge, store).value, NumberedFrom(b.Fills(), b.first))
  {
    var intents := BatchFrom(b.command, b.taker, b.fills).intents;
    var r, numbered := b.Requests(bridge, store).value, NumberedFrom(b.Fills(), b.first);
    BatchIsComplete(bridge, intents, store, b.first, |b.fills|);
    forall i | 0 <= i < |b.fills| ensures IsRequest(bridge, store, numbered[i], r[i]) {
      assert Ok(r[i]) == RequestFor(bridge, intents[i], store, b.first, i);
      SameRequest(bridge, intents[i], store, store, b.first, i, numbered[i].id);
    }
  }

  /** Over every run and every interleaving, the requests put into the queue are those of the bridged fills, in the
      order of bridging, each built from the two registered orders and carrying its fill's id. */
  lemma {:induction false} QueueIsRequests(bridge: SettlementBridge, work: seq<ServiceOp>)
    requires Steady(bridge, work)
    ensures var s := RunService(bridge, work);
            AreRequests(bridge, s.Store(), s.Trace().queued, s.queued)
  {
    if work != [] {
      var s, op := RunService(bridge, work[..|work| - 1]), work[|work| - 1];
      QueueIsRequests(bridge, work[..|work| - 1]);
      ActOnEdge(bridge, s, op);
      RequestsStay(bridge, s.Store(), Act(bridge, s, op).Store(), s.Trace().queued, s.queued);
      if Bridges(bridge, s, op) {
        var b := s.waiting[op.k];
        BatchRequests(bridge, s.Store(), b);
        RequestsJoin(bridge, s.Store(), s.Trace().queued, s.queued, Added(bridge, s, op),
                     NumberedFrom(b.Fills(), b.first));
      }
    }
  }

  // How often an id is in the queue's history, or in the hands of a waiting handler.
  function HasId(id: nat): Numbered -> nat {
    (n: Numbered) => if n.id == id then 1 else 0
  }

  function Holds(id: nat): Batch -> nat {
    (b: Batch) => if b.first <= id < b.first + |b.fills| then 1 else 0
  }

  function Uses(s: Service, id: nat): nat {
    SumOf(HasId(id), s.queued) + SumOf(Holds(id), s.waiting)
  }

  // How often a fill is in the queue's history, or in the hands of a waiting handler.
  function CountIn(t: Trade): Batch -> nat {
    (b: Batch) => multiset(b.Fills())[t]
  }

  function Has(s: Service, t: Trade): nat {
    multiset(JustTrades(s.queued))[t] + SumOf(CountIn(t), s.waiting)
  }

  lemma {:induction false} RangeHolds(trades: seq<Trade>, first: nat, id: nat)
    ensures SumOf(HasId(id), NumberedFrom(trades, first)) == if first <= id < first + |trades| then 1 else 0
  {
    if trades != [] {
      var init := trades[..|trades| - 1];
      RangeHolds(init, first, id);
      assert NumberedFrom(trades, first)[..|trades| - 1] == NumberedFrom(init, first);
    }
  }

  lemma NumberedTrades(trades: seq<Trade>, first: nat)
    ensures JustTrades(NumberedFrom(trades, first)) == trades
  {
  }

  lemma TradesJoin(front: seq<Numbered>, back: seq<Numbered>)
    ensures JustTrades(front + back) == JustTrades(front) + JustTrades(back)
  {
  }

  lemma {:induction false} BridgingKeepsUses(s: Service, k: nat, id: nat)
    requires k < |s.waiting|
    ensures var b := s.waiting[k];
            && SumOf(Holds(id), s.waiting) == SumOf(Holds(id), Without(s.waiting, k)) + Holds(id)(b)
            && SumOf(HasId(id), s.queued + NumberedFrom(b.Fills(), b.first))
               == SumOf(HasId(id), s.queued) + Holds(id)(b)
  {
    var b := s.waiting[k];
    SumRemove(Holds(id), s.waiting, k);
    SumConcat(HasId(id), s.queued, NumberedFrom(b.Fills(), b.first));
    RangeHolds(b.Fills(), b.first, id);
  }

  // One step: a batch that gets ids adds its range, one that is dropped loses it, and nothing else moves.
  lemma {:induction false} ActOnUses(bridge: SettlementBridge, s: Service, op: ServiceOp, id: nat)
    ensures Uses(Act(bridge, s, op), id) + (if Drops(bridge, s, op) then Holds(id)(s.waiting[op.k]) else 0)
            == Uses(s, id) + if GetsIds(s, op) && s.NextId() <= id < s.NextId() + |op.fills| then 1 else 0
  {
    if GetsIds(s, op) {
      SumPush(Holds(id), s.waiting, Batch(op.command, op.taker, op.fills, s.NextId()));
    } else if op.Enqueue? && op.k < |s.waiting| {
      BridgingKeepsUses(s, op.k, id);
    }
  }

  lemma {:induction false} BridgingKeepsTrades(s: Service, k: nat, t: Trade)
    requires k < |s.waiting|
    ensures var b := s.waiting[k];
            && SumOf(CountIn(t), s.waiting) == SumOf(CountIn(t), Without(s.waiting, k)) + CountIn(t)(b)
            && multiset(JustTrades(s.queued + NumberedFrom(b.Fills(), b.first)))[t]
               == multiset(JustTrades(s.queued))[t] + CountIn(t)(b)
  {
    var b := s.waiting[k];
    SumRemove(CountIn(t), s.waiting, k);
    NumberedTrades(b.Fills(), b.first);
    TradesJoin(s.queued, NumberedFrom(b.Fills(), b.first));
  }

  lemma {:induction false} ActOnTrades(bridge: SettlementBridge, s: Service, op: ServiceOp, t: Trade)
    ensures Has(Act(bridge, s, op), t) + (if Drops(bridge, s, op) then CountIn(t)(s.waiting[op.k]) else 0)
            == Has(s, t) + if GetsIds(s, op) then multiset(TradesOf(op.taker, op.fills))[t] else 0
  {
    if GetsIds(s, op) {
      SumPush(CountIn(t), s.waiting, Batch(op.command, op.taker, op.fills, s.NextId()));
    } else if op.Enqueue? && op.k < |s.waiting| {
      BridgingKeepsTrades(s, op.k, t);
    }
  }

  /** No id is used twice, queued and waiting batches together, and none that was not handed out. */
  lemma {:induction false} IdsUsedOnce(bridge: SettlementBridge, work: seq<ServiceOp>, id: nat)
    ensures Uses(RunService(bridge, work), id) <= if id < RunService(bridge, work).NextId() then 1 else 0
  {
    if work != [] {
      var s, op := RunService(bridge, work[..|work| - 1]), work[|work| - 1];
      IdsUsedOnce(bridge, work[..|work| - 1], id);
      ActOnEdge(bridge, s, op);
      ActOnUses(bridge, s, op, id);
    }
  }

  /** No fill is queued more often than it was served. */
  lemma {:induction false} QueuedWereServed(bridge: SettlementBridge, work: seq<ServiceOp>, t: Trade)
    ensures Has(RunService(bridge, work), t) <= multiset(Served(work))[t]
  {
    if work != [] {
      var s, op := RunService(bridge, work[..|work| - 1]), work[|work| - 1];
      QueuedWereServed(bridge, work[..|work| - 1], t);
      ActOnTrades(bridge, s, op, t);
    }
  }

  lemma {:induction false} IdIsHandedOut(bridge: SettlementBridge, work: seq<ServiceOp>, i: nat)
    requires i < |RunService(bridge, work).queued|
    ensures RunService(bridge, work).queued[i].id < RunService(bridge, work).NextId()
  {
    var s := RunService(bridge, work);
    IdsUsedOnce(bridge, work, s.queued[i].id);
    SumRemove(HasId(s.queued[i].id), s.queued, i);
  }

  lemma {:induction false} WaitingHaveIds(bridge: SettlementBridge, work: seq<ServiceOp>, k: nat)
    requires k < |RunService(bridge, work).waiting|
    ensures var s := RunService(bridge, work);
            s.waiting[k].fills != [] ==> s.waiting[k].first + |s.waiting[k].fills| <= s.NextId()
  {
    var s := RunService(bridge, work);
    var last := s.waiting[k].first + |s.waiting[k].fills| - 1;
    if s.waiting[k].fills != [] {
      IdsUsedOnce(bridge, work, last);
      SumRemove(Holds(last), s.waiting, k);
    }
  }

  lemma {:induction false} WaitingWereServed(bridge: SettlementBridge, work: seq<ServiceOp>, k: nat)
    requires k < |RunService(bridge, work).waiting|
    ensures forall t | t in RunService(bridge, work).waiting[k].Fills() :: t in Served(work)
  {
    var s := RunService(bridge, work);
    forall t | t in s.waiting[k].Fills() ensures t in Served(work) {
      QueuedWereServed(bridge, work, t);
      SumRemove(CountIn(t), s.waiting, k);
      assert t in multiset(s.waiting[k].Fills());
      assert multiset(Served(work))[t] > 0;
    }
  }

  predicate DistinctIds(numbered: seq<Numbered>) {
    forall i, j | 0 <= i < j < |numbered| :: numbered[i].id != numbered[j].id
  }

  lemma {:induction false} OnceIsDistinct(numbered: seq<Numbered>)
    requires forall id :: SumOf(HasId(id), numbered) <= 1
    ensures DistinctIds(numbered)
  {
    forall i, j | 0 <= i < j < |numbered| ensures numbered[i].id != numbered[j].id {
      var id := numbered[i].id;
      var rest := numbered[..j] + numbered[j + 1..];
      SumRemove(HasId(id), numbered, j);
      SumRemove(HasId(id), rest, i);
      assert rest[i] == numbered[i];
    }
  }

  /** Over every run and every interleaving, no two queued requests have the same id. */
  lemma {:induction false} QueuedIdsDistinct(bridge: SettlementBridge, work: seq<ServiceOp>)
    ensures DistinctIds(RunService(bridge, work).queued)
  {
    forall id ensures SumOf(HasId(id), RunService(bridge, work).queued) <= 1 {
      IdsUsedOnce(bridge, work, id);
    }
    OnceIsDistinct(RunService(bridge, work).queued);
  }

  lemma {:induction false} QueuedArePart(bridge: SettlementBridge, work: seq<ServiceOp>)
    ensures multiset(JustTrades(RunService(bridge, work).queued)) <= multiset(Served(work))
  {
    forall t ensures multiset(JustTrades(RunService(bridge, work).queued))[t] <= multiset(Served(work))[t] {
      QueuedWereServed(bridge, work, t);
    }
  }

  // Every placed order with fills got its ids, and no batch was dropped.
  predicate NothingLost(bridge: SettlementBridge, work: seq<ServiceOp>) {
    work != [] ==>
      && NothingLost(bridge, work[..|work| - 1])
      && var s, op := RunService(bridge, work[..|work| - 1]), work[|work| - 1];
         !Drops(bridge, s, op) && (op.Number? && op.fills != [] ==> GetsIds(s, op))
  }

  lemma {:induction false} EveryIdUsed(bridge: SettlementBridge, work: seq<ServiceOp>, id: nat)
    requires NothingLost(bridge, work)
    ensures Uses(RunService(bridge, work), id) == if id < RunService(bridge, work).NextId() then 1 else 0
  {
    if work != [] {
      var s, op := RunService(bridge, work[..|work| - 1]), work[|work| - 1];
      EveryIdUsed(bridge, work[..|work| - 1], id);
      ActOnEdge(bridge, s, op);
      ActOnUses(bridge, s, op, id);
    }
  }

  lemma {:induction false} EveryFillKept(bridge: SettlementBridge, work: seq<ServiceOp>, t: Trade)
    requires NothingLost(bridge, work)
    ensures Has(RunService(bridge, work), t) == multiset(Served(work))[t]
  {
    if work != [] {
      var s, op := RunService(bridge, work[..|work| - 1]), work[|work| - 1];
      EveryFillKept(bridge, work[..|work| - 1], t);
      ActOnTrades(bridge, s, op, t);
    }
  }

  lemma {:induction false} IdsCountFills(bridge: SettlementBridge, work: seq<ServiceOp>)
    requires NothingLost(bridge, work)
    ensures RunService(bridge, work).NextId() == |Served(work)|
  {
    if work != [] {
      IdsCountFills(bridge, work[..|work| - 1]);
      ActOnEdge(bridge, RunService(bridge, work[..|work| - 1]), work[|work| - 1]);
    }
  }

  lemma {:induction false} SumPositive<T>(f: T -> nat, s: seq<T>) returns (i: nat)
    requires SumOf(f, s) > 0
    ensures i < |s| && f(s[i]) > 0
  {
    var n := |s| - 1;
    if f(s[n]) > 0 {
      i := n;
    } else {
      i := SumPositive(f, s[..n]);
    }
  }

  predicate IsUsed(numbered: seq<Numbered>, id: nat) {
    exists n :: n in numbered && n.id == id
  }

  /** When nothing is lost and no handler is waiting, the queued fills are exactly the served ones, and every id handed
      out is in the queue. */
  lemma {:induction false} AllServedAreQueued(bridge: SettlementBridge, work: seq<ServiceOp>)
    requires NothingLost(bridge, work) && RunService(bridge, work).waiting == []
    ensures multiset(JustTrades(RunService(bridge, work).queued)) == multiset(Served(work))
    ensures forall id: nat | id < RunService(bridge, work).NextId() :: IsUsed(RunService(bridge, work).queued, id)
  {
    var s := RunService(bridge, work);
    forall t ensures multiset(JustTrades(s.queued))[t] == multiset(Served(work))[t] {
      EveryFillKept(bridge, work, t);
    }
    forall id: nat | id < s.NextId() ensures IsUsed(s.queued, id) {
      EveryIdUsed(bridge, work, id);
      var i := SumPositive(HasId(id), s.queued);
      assert s.queued[i] in s.queued;
    }
  }

  // The two orders of every served fill are registered by then.
  predicate RegisteredFirst(bridge: SettlementBridge, work: seq<ServiceOp>) {
    work != [] ==>
      && RegisteredFirst(bridge, work[..|work| - 1])
      && var store, op := RunService(bridge, work[..|work| - 1]).Store(), work[|work| - 1];
         op.Number? ==> Known(store, op.fills)
  }

  predicate Known(store: Store, fills: seq<Fill>) {
    forall f | f in fills :: f.makerOrder in store && f.takerOrder in store
  }

  // So are those of every waiting batch.
  lemma {:induction false} WaitingKnown(bridge: SettlementBridge, work: seq<ServiceOp>)
    requires RegisteredFirst(bridge, work)
    ensures forall b | b in RunService(bridge, work).waiting :: Known(RunService(bridge, work).Store(), b.fills)
  {
    if work != [] {
      var s, op := RunService(bridge, work[..|work| - 1]), work[|work| - 1];
      WaitingKnown(bridge, work[..|work| - 1]);
      ActOnEdge(bridge, s, op);
    }
  }
}
