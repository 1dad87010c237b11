/** What the greedy match means, and what every placement and cancel keeps. */
module MatchingLaws {
  import opened Types
  import opened Orders
  import opened OrderBook
  import opened Matching
  import opened Sums

  function FillQuantity(): Fill -> nat {
    (f: Fill) => f.quantity
  }

  function Traded(fills: seq<Fill>): nat {
    SumOf(FillQuantity(), fills)
  }

  function TakerAfter(taker: Order, traded: nat): Order
    requires taker.status.Cancelled? ==> traded == 0
    requires traded <= taker.remaining
  {
    if traded == 0 then taker else ApplyFill(taker, traded).value
  }

  predicate Hits(taker: Order, maker: Order, fill: Fill) {
    && Crosses(taker, maker)
    && fill.quantity <= maker.remaining
    && fill == FillBetween(maker, taker, fill.quantity)
  }

  // The makers hit are a prefix of the queue; all but the last are filled completely.
  ghost predicate HitsPrefix(taker: Order, makers: seq<Order>, fills: seq<Fill>) {
    && |fills| <= |makers|
    && (forall k | 0 <= k < |fills| :: Hits(taker, makers[k], fills[k]))
    && (forall k | 0 <= k < |fills| - 1 :: fills[k].quantity == makers[k].remaining)
  }

  // What is left of the queue: the last maker hit keeps its place at the front when some of it is left.
  ghost predicate LeavesQueue(makers: seq<Order>, fills: seq<Fill>, left: seq<Order>)
    requires |fills| <= |makers|
  {
    var n := |fills|;
    if n > 0 && fills[n - 1].quantity < makers[n - 1].remaining && !makers[n - 1].IsTerminal() then
      left == [ApplyFill(makers[n - 1], fills[n - 1].quantity).value] + makers[n..]
    else left == makers[n..]
  }

  // Price-time priority, stated without the loop.
  ghost predicate PriceTime(taker: Order, makers: seq<Order>, out: Outcome)
    requires Matchable(taker, makers)
  {
    && HitsPrefix(taker, makers, out.fills)
    && LeavesQueue(makers, out.fills, out.makers)
    && Traded(out.fills) <= taker.remaining
    && out.taker == TakerAfter(taker, Traded(out.fills))
    && (out.taker.remaining == 0 || out.makers == [] || !Crosses(taker, out.makers[0]))
  }

  predicate Trades(taker: Order, makers: seq<Order>) {
    taker.remaining != 0 && makers != [] && Crosses(taker, makers[0])
  }

  /** A maker used up leaves the same question about the rest of the queue. */
  lemma UsedUpMaker(taker: Order, makers: seq<Order>, fills: seq<Fill>)
    requires Matchable(taker, makers) && Trades(taker, makers)
    requires makers[0].remaining <= taker.remaining
    ensures var quantity := makers[0].remaining;
            var first := FillBetween(makers[0], taker, quantity);
            var taker' := ApplyFill(taker, quantity).value;
            && Traded([first] + fills) == quantity + Traded(fills)
            && (HitsPrefix(taker, makers, [first] + fills) <==> HitsPrefix(taker', makers[1..], fills))
  {
    var first := FillBetween(makers[0], taker, makers[0].remaining);
    var taker' := ApplyFill(taker, makers[0].remaining).value;
    SumCons(FillQuantity(), first, fills);
    if HitsPrefix(taker', makers[1..], fills) {
      LongerPrefix(taker', makers, first, fills);
    }
    if HitsPrefix(taker, makers, [first] + fills) {
      ShorterPrefix(taker, makers, first, fills);
    }
  }

  lemma LongerPrefix(taker: Order, makers: seq<Order>, first: Fill, fills: seq<Fill>)
    requires makers != [] && Hits(taker, makers[0], first) && first.quantity == makers[0].remaining
    requires HitsPrefix(taker, makers[1..], fills)
    ensures HitsPrefix(taker, makers, [first] + fills)
  {
    var all := [first] + fills;
    forall k | 0 <= k < |all|
      ensures Hits(taker, makers[k], all[k])
      ensures k < |all| - 1 ==> all[k].quantity == makers[k].remaining
    {
      if k > 0 {
        assert all[k] == fills[k - 1] && makers[k] == makers[1..][k - 1];
      }
    }
  }

  lemma ShorterPrefix(taker: Order, makers: seq<Order>, first: Fill, fills: seq<Fill>)
    requires makers != [] && HitsPrefix(taker, makers, [first] + fills)
    ensures HitsPrefix(taker, makers[1..], fills)
  {
    var all := [first] + fills;
    forall k | 0 <= k < |fills|
      ensures Hits(taker, makers[1..][k], fills[k])
      ensures k < |fills| - 1 ==> fills[k].quantity == makers[1..][k].remaining
    {
      assert all[k + 1] == fills[k] && makers[k + 1] == makers[1..][k];
    }
  }

  lemma UsedUpQueue(taker: Order, makers: seq<Order>, fills: seq<Fill>, left: seq<Order>)
    requires Matchable(taker, makers) && Trades(taker, makers)
    requires makers[0].remaining <= taker.remaining
    requires |fills| < |makers|
    ensures var first := FillBetween(makers[0], taker, makers[0].remaining);
            LeavesQueue(makers, [first] + fills, left) <==> LeavesQueue(makers[1..], fills, left)
  {
    var n := |fills|;
    assert makers[n + 1..] == makers[1..][n..];
    if n > 0 {
      assert makers[n] == makers[1..][n - 1];
    }
  }

  lemma UsedUpStep(taker: Order, makers: seq<Order>, rest: Outcome)
    requires Matchable(taker, makers) && Trades(taker, makers)
    requires makers[0].remaining <= taker.remaining
    requires PriceTime(ApplyFill(taker, makers[0].remaining).value, makers[1..], rest)
    ensures var first := FillBetween(makers[0], taker, makers[0].remaining);
            PriceTime(taker, makers, rest.(fills := [first] + rest.fills))
  {
    UsedUpMaker(taker, makers, rest.fills);
    UsedUpQueue(taker, makers, rest.fills, rest.makers);
  }

  lemma NoTradeIsPriceTime(taker: Order, makers: seq<Order>)
    requires Matchable(taker, makers) && !Trades(taker, makers)
    ensures PriceTime(taker, makers, Outcome(taker, makers, []))
  {
  }

  lemma {:induction false} PartlyUsedStep(taker: Order, makers: seq<Order>)
    requires Matchable(taker, makers) && Trades(taker, makers)
    requires taker.remaining < makers[0].remaining
    ensures PriceTime(taker, makers, Greedy(taker, makers))
  {
    PartlyUsedMaker(taker, makers);
  }

  /** The greedy match obeys price-time priority. */
  lemma {:induction false} GreedyIsPriceTime(taker: Order, makers: seq<Order>)
    requires Matchable(taker, makers)
    ensures PriceTime(taker, makers, Greedy(taker, makers))
    decreases taker.remaining
  {
    if !Trades(taker, makers) {
      NoTradeIsPriceTime(taker, makers);
    } else if taker.remaining < makers[0].remaining {
      PartlyUsedStep(taker, makers);
    } else {
      var taker' := ApplyFill(taker, makers[0].remaining).value;
      GreedyIsPriceTime(taker', makers[1..]);
      UsedUpStep(taker, makers, Greedy(taker', makers[1..]));
    }
  }

  lemma {:induction false} PartlyUsedMaker(taker: Order, makers: seq<Order>)
    requires Matchable(taker, makers) && Trades(taker, makers)
    requires taker.remaining < makers[0].remaining
    ensures var first := FillBetween(makers[0], taker, taker.remaining);
            && Traded([first]) == taker.remaining
            && Greedy(taker, makers) == Outcome(ApplyFill(taker, taker.remaining).value,
                                                [ApplyFill(makers[0], taker.remaining).value] + makers[1..], [first])
  {
    var first := FillBetween(makers[0], taker, taker.remaining);
    assert [first] + [] == [first];
    SumCons(FillQuantity(), first, []);
  }

  /** And only the greedy match does: price-time priority leaves no choice. */
  lemma {:induction false} PriceTimeIsGreedy(taker: Order, makers: seq<Order>, out: Outcome)
    requires Matchable(taker, makers)
    requires PriceTime(taker, makers, out)
    ensures out == Greedy(taker, makers)
    decreases taker.remaining
  {
    if out.fills != [] {
      var fills := out.fills;
      var first, others := fills[0], fills[1..];
      assert fills == [first] + others;
      SumCons(FillQuantity(), first, others);
      FirstQuantity(taker, makers, out);
      if first.quantity == makers[0].remaining {
        UsedUpMaker(taker, makers, others);
        UsedUpQueue(taker, makers, others, out.makers);
        PriceTimeIsGreedy(ApplyFill(taker, first.quantity).value, makers[1..], out.(fills := others));
      } else {
        assert others == [];
        PartlyUsedMaker(taker, makers);
      }
    }
  }

  lemma FirstQuantity(taker: Order, makers: seq<Order>, out: Outcome)
    requires Matchable(taker, makers)
    requires PriceTime(taker, makers, out) && out.fills != []
    ensures Trades(taker, makers)
    ensures out.fills[0].quantity == MinRemaining(taker, makers[0])
  {
    var fills := out.fills;
    assert fills == [fills[0]] + fills[1..];
    SumCons(FillQuantity(), fills[0], fills[1..]);
    if |fills| == 1 {
      assert fills[1..] == [];
    }
  }

  lemma SortedDrop(side: Side, flat: seq<Order>, n: nat)
    requires Sorted(side, flat) && Resting(side, flat) && n <= |flat|
    ensures Sorted(side, flat[n..]) && Resting(side, flat[n..])
  {
    forall i, j | 0 <= i < j < |flat[n..]| ensures !Better(side, flat[n..][j].price, flat[n..][i].price) {
      assert flat[n..][i] == flat[n + i] && flat[n..][j] == flat[n + j];
    }
  }

  /** What the match leaves of a queue is still a queue, at prices that were already there. */
  lemma LeftInOrder(side: Side, taker: Order, makers: seq<Order>, fills: seq<Fill>, left: seq<Order>)
    requires Sorted(side, makers) && Resting(side, makers)
    requires HitsPrefix(taker, makers, fills) && LeavesQueue(makers, fills, left)
    ensures Sorted(side, left) && Resting(side, left)
    ensures forall o | o in left :: exists m :: m in makers && SameTerms(m, o)
  {
    var n := |fills|;
    SortedDrop(side, makers, n);
    if left != makers[n..] {
      var maker := makers[n - 1];
      var maker' := ApplyFill(maker, fills[n - 1].quantity).value;
      assert left == [maker'] + makers[n..];
      assert SameTerms(maker, maker') && maker in makers;
      SortedCons(side, maker', makers[n..]);
      forall o | o in left ensures exists m :: m in makers && SameTerms(m, o) {
        if o != maker' {
          assert o in makers && SameTerms(o, o);
        }
      }
    } else {
      forall o | o in left ensures exists m :: m in makers && SameTerms(m, o) {
        assert o in makers && SameTerms(o, o);
      }
    }
  }

  lemma RestsUncrossed(taker: Order, left: seq<Order>)
    requires Sorted(taker.side.Opposite(), left)
    requires left == [] || !Crosses(taker, left[0])
    ensures forall m | m in left :: !Crosses(taker, m)
  {
    if left != [] {
      SortedTail(taker.side.Opposite(), left);
      assert left == [left[0]] + left[1..];
    }
  }

  // No order of one side could trade with an order of the other.
  ghost predicate Apart(side: Side, own: seq<Order>, makers: seq<Order>) {
    forall o, m | o in own && m in makers :: Better(side, m.price, o.price)
  }

  lemma PlaceKeepsOrdered(book: Book, order: Order)
    requires book.Ordered()
    ensures Place(book, order).Ok? ==> Place(book, order).value.1.Ordered()
  {
    if !order.IsTerminal() {
      var side := order.side;
      var makers, own := book.Makers(side), book.Own(side);
      var out := Greedy(order, makers);
      GreedyIsPriceTime(order, makers);
      LeftInOrder(side.Opposite(), order, makers, out.fills, out.makers);
      if !out.taker.IsTerminal() {
        InsertSorted(side, own, out.taker);
        InsertMembers(side, own, out.taker);
      }
    }
  }

  lemma {:induction false} StaysApart(order: Order, own: seq<Order>, makers: seq<Order>)
    requires Matchable(order, makers) && Sorted(order.side.Opposite(), makers)
    requires Apart(order.side, own, makers)
    ensures var out := Greedy(order, makers);
            && Apart(order.side, own, out.makers)
            && (!out.taker.IsTerminal() ==> Apart(order.side, FlatInsert(order.side, own, out.taker), out.makers))
  {
    var out := Greedy(order, makers);
    GreedyIsPriceTime(order, makers);
    LeftInOrder(order.side.Opposite(), order, makers, out.fills, out.makers);
    forall o, m | o in own && m in out.makers ensures Better(order.side, m.price, o.price) {
      var was :| was in makers && SameTerms(was, m);
    }
    if !out.taker.IsTerminal() {
      RestsUncrossed(order, out.makers);
      InsertMembers(order.side, own, out.taker);
    }
  }

  /** A placement keeps the book ordered and uncrossed, and only a terminal order is refused. */
  lemma PlaceKeepsGood(book: Book, order: Order)
    requires book.Good()
    ensures Place(book, order).Err? <==> order.IsTerminal()
    ensures Place(book, order).Ok? ==> Place(book, order).value.1.Good()
  {
    if !order.IsTerminal() {
      PlaceKeepsOrdered(book, order);
      StaysApart(order, book.Own(order.side), book.Makers(order.side));
    }
  }

  datatype BookOp = Join(order: Order) | CancelOn(side: Side, id: OrderId)

  ghost predicate BookStep(book: Book, op: BookOp, book': Book)
    requires book.Ordered()
  {
    match op
    case Join(order) =>
      book' == if order.IsTerminal() then book else Place(book, order).value.1
    case CancelOn(side, id) =>
      && (exists r :: Cancels(book.Own(side), id, r, book'.Own(side)))
      && book'.Own(side.Opposite()) == book.Own(side.Opposite())
  }

  /** A cancel takes out at most one order; the rest keep their order among each other, at one price and across. */
  lemma CancelKeepsOrder(side: Side, flat: seq<Order>, id: OrderId, r: Result<Order, DomainError>, flat': seq<Order>)
    requires Sorted(side, flat) && Resting(side, flat) && Cancels(flat, id, r, flat')
    ensures Sorted(side, flat') && Resting(side, flat')
    ensures flat' == flat || exists k: nat :: WithoutOne(flat, k, flat')
  {
    if exists o :: o in flat && o.id == id {
      var k: nat :| IsCancelTarget(flat, id, k) && r == CancelOrder(flat[k]) && flat' == flat[..k] + flat[k + 1..];
      RemoveKeepsOrder(side, flat, k);
      assert WithoutOne(flat, k, flat');
    }
  }

  predicate WithoutOne(flat: seq<Order>, k: nat, flat': seq<Order>) {
    k < |flat| && flat' == flat[..k] + flat[k + 1..]
  }

  /** What a cancel returns is an order with the requested id, and it is the only one missing afterwards. */
  lemma CancelTakesOne(flat: seq<Order>, id: OrderId, r: Result<Order, DomainError>, flat': seq<Order>)
    returns (o: Order)
    requires Cancels(flat, id, r, flat') && (exists o :: o in flat && o.id == id)
    ensures r == CancelOrder(o) && o.id == id
    ensures multiset(flat) == multiset(flat') + multiset{o}
  {
    var k: nat :| IsCancelTarget(flat, id, k) && r == CancelOrder(flat[k]) && flat' == flat[..k] + flat[k + 1..];
    o := flat[k];
    MultisetRemove(flat, k);
  }

  lemma MultisetRemove<T>(s: seq<T>, k: nat)
    requires k < |s|
    ensures multiset(s) == multiset(s[..k] + s[k + 1..]) + multiset{s[k]}
  {
    assert s == s[..k] + [s[k]] + s[k + 1..];
  }

  lemma FewerStayApart(flat: seq<Order>, k: nat, flat': seq<Order>)
    requires WithoutOne(flat, k, flat')
    ensures forall o | o in flat' :: o in flat
  {
  }

  lemma CancelKeepsGood(book: Book, side: Side, id: OrderId, r: Result<Order, DomainError>, book': Book)
    requires book.Good() && Cancels(book.Own(side), id, r, book'.Own(side))
    requires book'.Own(side.Opposite()) == book.Own(side.Opposite())
    ensures book'.Good()
  {
    var own, own' := book.Own(side), book'.Own(side);
    CancelKeepsOrder(side, own, id, r, own');
    if own' != own {
      var k: nat :| WithoutOne(own, k, own');
      FewerStayApart(own, k, own');
    }
  }

  lemma BookStepKeepsGood(book: Book, op: BookOp, book': Book)
    requires book.Good() && BookStep(book, op, book')
    ensures book'.Good()
  {
    match op
    case Join(order) => PlaceKeepsGood(book, order);
    case CancelOn(side, id) =>
      var r :| Cancels(book.Own(side), id, r, book'.Own(side));
      CancelKeepsGood(book, side, id, r, book');
  }

  // The k-th order came in with operation stamps[k]; at one price, what came in earlier stands further in front.
  ghost predicate Stamped(ops: seq<BookOp>, flat: seq<Order>, stamps: seq<nat>) {
    && |stamps| == |flat|
    && (forall k | 0 <= k < |flat| ::
          stamps[k] < |ops| && ops[stamps[k]].Join? && SameTerms(ops[stamps[k]].order, flat[k]))
    && (forall i, j | 0 <= i < j < |flat| && flat[i].price == flat[j].price :: stamps[i] < stamps[j])
  }

  ghost predicate ByArrival(ops: seq<BookOp>, flat: seq<Order>) {
    exists stamps :: Stamped(ops, flat, stamps)
  }

  lemma LaterOperation(ops: seq<BookOp>, op: BookOp, flat: seq<Order>)
    requires ByArrival(ops, flat)
    ensures ByArrival(ops + [op], flat)
  {
    var stamps :| Stamped(ops, flat, stamps);
    assert Stamped(ops + [op], flat, stamps);
  }

  lemma ArrivalWithoutOne(ops: seq<BookOp>, flat: seq<Order>, k: nat, flat': seq<Order>)
    requires ByArrival(ops, flat) && WithoutOne(flat, k, flat')
    ensures ByArrival(ops, flat')
  {
    var stamps :| Stamped(ops, flat, stamps);
    var stamps' := stamps[..k] + stamps[k + 1..];
    forall i | 0 <= i < |flat'|
      ensures flat'[i] == flat[if i < k then i else i + 1] && stamps'[i] == stamps[if i < k then i else i + 1]
    {
    }
    assert Stamped(ops, flat', stamps');
  }

  lemma ArrivalDrop(ops: seq<BookOp>, flat: seq<Order>, n: nat)
    requires ByArrival(ops, flat) && n <= |flat|
    ensures ByArrival(ops, flat[n..])
  {
    var stamps :| Stamped(ops, flat, stamps);
    assert Stamped(ops, flat[n..], stamps[n..]);
  }

  lemma ArrivalSameFront(ops: seq<BookOp>, flat: seq<Order>, o: Order)
    requires ByArrival(ops, flat) && flat != [] && SameTerms(flat[0], o)
    ensures ByArrival(ops, [o] + flat[1..])
  {
    var stamps :| Stamped(ops, flat, stamps);
    var flat' := [o] + flat[1..];
    assert forall i | 0 <= i < |flat| :: SameTerms(flat[i], flat'[i]);
    assert Stamped(ops, flat', stamps);
  }

  // What a match leaves of a queue keeps its arrival order.
  lemma ArrivalLeft(ops: seq<BookOp>, taker: Order, makers: seq<Order>, fills: seq<Fill>, left: seq<Order>)
    requires ByArrival(ops, makers)
    requires HitsPrefix(taker, makers, fills) && LeavesQueue(makers, fills, left)
    ensures ByArrival(ops, left)
  {
    var n := |fills|;
    if left == makers[n..] {
      ArrivalDrop(ops, makers, n);
    } else {
      var maker' := ApplyFill(makers[n - 1], fills[n - 1].quantity).value;
      ArrivalDrop(ops, makers, n - 1);
      ArrivalSameFront(ops, makers[n - 1..], maker');
      assert makers[n - 1..][1..] == makers[n..];
    }
  }

  // Where a newcomer goes: in front of exactly the orders it is better than.
  lemma {:induction false} InsertPlace(side: Side, flat: seq<Order>, o: Order) returns (k: nat)
    requires Sorted(side, flat)
    ensures k <= |flat| && FlatInsert(side, flat, o) == flat[..k] + [o] + flat[k..]
    ensures forall j | k <= j < |flat| :: flat[j].price != o.price
  {
    if flat == [] || Better(side, o.price, flat[0].price) {
      k := 0;
    } else {
      SortedTail(side, flat);
      var i := InsertPlace(side, flat[1..], o);
      k := i + 1;
      assert flat[..k] == [flat[0]] + flat[1..][..i] && flat[k..] == flat[1..][i..];
      forall j | k <= j < |flat| ensures flat[j].price != o.price {
        assert flat[j] == flat[1..][j - 1];
      }
    }
  }

  lemma {:induction false} ArrivalInsert(ops: seq<BookOp>, order: Order, side: Side, flat: seq<Order>, o: Order)
    requires ByArrival(ops, flat) && Sorted(side, flat) && SameTerms(order, o)
    ensures ByArrival(ops + [Join(order)], FlatInsert(side, flat, o))
  {
    var stamps :| Stamped(ops, flat, stamps);
    var k := InsertPlace(side, flat, o);
    StampedInsert(ops, order, flat, stamps, k, o);
  }

  lemma StampedInsert(ops: seq<BookOp>, order: Order, flat: seq<Order>, stamps: seq<nat>, k: nat, o: Order)
    requires Stamped(ops, flat, stamps) && k <= |flat| && SameTerms(order, o)
    requires forall j | k <= j < |flat| :: flat[j].price != o.price
    ensures ByArrival(ops + [Join(order)], flat[..k] + [o] + flat[k..])
  {
    var flat', stamps' := flat[..k] + [o] + flat[k..], stamps[..k] + [|ops|] + stamps[k..];
    forall i | 0 <= i < |flat'| && i != k
      ensures flat'[i] == flat[if i < k then i else i - 1] && stamps'[i] == stamps[if i < k then i else i - 1]
    {
    }
    assert flat'[k] == o && stamps'[k] == |ops|;
    assert Stamped(ops + [Join(order)], flat', stamps');
  }

  lemma JoinKeepsArrival(ops: seq<BookOp>, book: Book, order: Order)
    requires book.Ordered() && !order.IsTerminal()
    requires ByArrival(ops, book.bids) && ByArrival(ops, book.asks)
    ensures var book', ops' := Place(book, order).value.1, ops + [Join(order)];
            ByArrival(ops', book'.bids) && ByArrival(ops', book'.asks)
  {
    var side := order.side;
    var makers, own := book.Makers(side), book.Own(side);
    var out := Greedy(order, makers);
    GreedyIsPriceTime(order, makers);
    ArrivalLeft(ops, order, makers, out.fills, out.makers);
    LaterOperation(ops, Join(order), out.makers);
    LaterOperation(ops, Join(order), own);
    ArrivalInsert(ops, order, side, own, out.taker);
  }

  lemma StepKeepsArrival(ops: seq<BookOp>, book: Book, op: BookOp, book': Book)
    requires book.Ordered() && BookStep(book, op, book')
    requires ByArrival(ops, book.bids) && ByArrival(ops, book.asks)
    ensures ByArrival(ops + [op], book'.bids) && ByArrival(ops + [op], book'.asks)
  {
    LaterOperation(ops, op, book.bids);
    LaterOperation(ops, op, book.asks);
    match op
    case Join(order) =>
      if !order.IsTerminal() {
        JoinKeepsArrival(ops, book, order);
      }
    case CancelOn(side, id) =>
      var r :| Cancels(book.Own(side), id, r, book'.Own(side));
      CancelKeepsOrder(side, book.Own(side), id, r, book'.Own(side));
      if book'.Own(side) != book.Own(side) {
        var k: nat :| WithoutOne(book.Own(side), k, book'.Own(side));
        ArrivalWithoutOne(ops + [op], book.Own(side), k, book'.Own(side));
      }
  }

  // A run of the book from empty: one state before each operation and one after the last.
  ghost predicate BookRun(ops: seq<BookOp>, books: seq<Book>) {
    && |books| == |ops| + 1
    && books[0] == Book([], [])
    && forall i | 0 <= i < |ops| :: books[i].Ordered() ==> BookStep(books[i], ops[i], books[i + 1])
  }

  ghost predicate InOrder(ops: seq<BookOp>, book: Book) {
    book.Good() && ByArrival(ops, book.bids) && ByArrival(ops, book.asks)
  }

  lemma StepKeepsInOrder(ops: seq<BookOp>, book: Book, op: BookOp, book': Book)
    requires InOrder(ops, book) && BookStep(book, op, book')
    ensures InOrder(ops + [op], book')
  {
    BookStepKeepsGood(book, op, book');
    StepKeepsArrival(ops, book, op, book');
  }

  lemma EmptyInOrder()
    ensures InOrder([], Book([], []))
  {
    assert Stamped([], [], []);
  }

  /** After any run of placements and cancels the book is sorted by price, within a price by the operation that brought
      each order in, holds only live orders and is uncrossed. */
  lemma {:induction false} BookAlwaysGood(ops: seq<BookOp>, books: seq<Book>, n: nat)
    requires BookRun(ops, books) && n <= |ops|
    ensures InOrder(ops[..n], books[n])
  {
    if n == 0 {
      EmptyInOrder();
      assert ops[..0] == [];
    } else {
      BookAlwaysGood(ops, books, n - 1);
      assert ops[..n] == ops[..n - 1] + [ops[n - 1]];
      StepKeepsInOrder(ops[..n - 1], books[n - 1], ops[n - 1], books[n]);
    }
  }
}
