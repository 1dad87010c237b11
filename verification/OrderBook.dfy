/** One side of the order book: price levels, each a first-in first-out queue. */
module OrderBook {
  import opened Types
  import opened Orders

  // A bid is better when it pays more, an ask when it charges less.
  predicate Better(side: Side, p: Price, q: Price) {
    if side == Bid then p > q else p < q
  }

  // The simple view of a side: one sequence, best price first and then by arrival.
  ghost predicate Sorted(side: Side, flat: seq<Order>) {
    forall i, j | 0 <= i < j < |flat| :: !Better(side, flat[j].price, flat[i].price)
  }

  ghost predicate Resting(side: Side, flat: seq<Order>) {
    forall o | o in flat :: o.side == side && !o.IsTerminal()
  }

  function AtPrice(flat: seq<Order>, p: Price): seq<Order> {
    if flat == [] then []
    else if flat[0].price == p then [flat[0]] + AtPrice(flat[1..], p)
    else AtPrice(flat[1..], p)
  }

  // The level map and the flat sequence are two views of the same side.
  ghost predicate Represents(side: Side, levels: map<Price, seq<Order>>, flat: seq<Order>) {
    && Sorted(side, flat)
    && Resting(side, flat)
    && forall p: Price :: (p in levels <==> AtPrice(flat, p) != []) && (p in levels ==> levels[p] == AtPrice(flat, p))
  }

  // A newcomer queues behind everything at least as good.
  function FlatInsert(side: Side, flat: seq<Order>, o: Order): seq<Order> {
    if flat == [] || Better(side, o.price, flat[0].price) then [o] + flat
    else [flat[0]] + FlatInsert(side, flat[1..], o)
  }

  // A maker put back goes in front of everything no better.
  function FlatReinsert(side: Side, flat: seq<Order>, o: Order): seq<Order> {
    if flat == [] || !Better(side, flat[0].price, o.price) then [o] + flat
    else [flat[0]] + FlatReinsert(side, flat[1..], o)
  }

  lemma {:induction false} AtPriceMembers(flat: seq<Order>, p: Price)
    ensures forall o :: o in AtPrice(flat, p) <==> o in flat && o.price == p
  {
    if flat != [] {
      AtPriceMembers(flat[1..], p);
      assert flat == [flat[0]] + flat[1..];
    }
  }

  lemma {:induction false} AtPriceSome(flat: seq<Order>, o: Order)
    requires o in flat
    ensures AtPrice(flat, o.price) != []
  {
    AtPriceMembers(flat, o.price);
  }

  lemma SortedTail(side: Side, flat: seq<Order>)
    requires Sorted(side, flat) && flat != []
    ensures Sorted(side, flat[1..])
    ensures forall o | o in flat[1..] :: !Better(side, o.price, flat[0].price)
  {
    forall i, j | 0 <= i < j < |flat[1..]| ensures !Better(side, flat[1..][j].price, flat[1..][i].price) {
      assert flat[1..][i] == flat[i + 1] && flat[1..][j] == flat[j + 1];
    }
  }

  lemma SortedCons(side: Side, o: Order, rest: seq<Order>)
    requires Sorted(side, rest)
    requires forall x | x in rest :: !Better(side, x.price, o.price)
    ensures Sorted(side, [o] + rest)
  {
  }

  lemma {:induction false} InsertMembers(side: Side, flat: seq<Order>, o: Order)
    ensures multiset(FlatInsert(side, flat, o)) == multiset(flat) + multiset{o}
    ensures forall x :: x in FlatInsert(side, flat, o) <==> x in flat || x == o
  {
    if !(flat == [] || Better(side, o.price, flat[0].price)) {
      InsertMembers(side, flat[1..], o);
      assert flat == [flat[0]] + flat[1..];
    }
  }

  lemma {:induction false} ReinsertMembers(side: Side, flat: seq<Order>, o: Order)
    ensures forall x :: x in FlatReinsert(side, flat, o) <==> x in flat || x == o
  {
    if !(flat == [] || !Better(side, flat[0].price, o.price)) {
      ReinsertMembers(side, flat[1..], o);
      assert flat == [flat[0]] + flat[1..];
    }
  }

  lemma {:induction false} InsertSorted(side: Side, flat: seq<Order>, o: Order)
    requires Sorted(side, flat)
    ensures Sorted(side, FlatInsert(side, flat, o))
  {
    if flat != [] {
      SortedTail(side, flat);
    }
    if flat == [] || Better(side, o.price, flat[0].price) {
      SortedCons(side, o, flat);
    } else {
      InsertSorted(side, flat[1..], o);
      InsertMembers(side, flat[1..], o);
      SortedCons(side, flat[0], FlatInsert(side, flat[1..], o));
    }
  }

  lemma {:induction false} ReinsertSorted(side: Side, flat: seq<Order>, o: Order)
    requires Sorted(side, flat)
    ensures Sorted(side, FlatReinsert(side, flat, o))
  {
    if flat != [] {
      SortedTail(side, flat);
    }
    if flat == [] || !Better(side, flat[0].price, o.price) {
      SortedCons(side, o, flat);
    } else {
      ReinsertSorted(side, flat[1..], o);
      ReinsertMembers(side, flat[1..], o);
      SortedCons(side, flat[0], FlatReinsert(side, flat[1..], o));
    }
  }

  /** A newcomer joins the back of its own price level and touches no other. */
  lemma {:induction false} InsertLevels(side: Side, flat: seq<Order>, o: Order, p: Price)
    requires Sorted(side, flat)
    ensures AtPrice(FlatInsert(side, flat, o), p) == if p == o.price then AtPrice(flat, p) + [o] else AtPrice(flat, p)
  {
    var after := FlatInsert(side, flat, o);
    if flat == [] || Better(side, o.price, flat[0].price) {
      assert after[1..] == flat;
      NoneAtBetterPrice(side, flat, o.price);
    } else {
      SortedTail(side, flat);
      InsertLevels(side, flat[1..], o, p);
      assert after[1..] == FlatInsert(side, flat[1..], o);
    }
  }

  lemma {:induction false} NoneAtBetterPrice(side: Side, flat: seq<Order>, p: Price)
    requires Sorted(side, flat)
    requires flat == [] || Better(side, p, flat[0].price)
    ensures AtPrice(flat, p) == []
  {
    AtPriceMembers(flat, p);
    if AtPrice(flat, p) != [] {
      assert AtPrice(flat, p)[0] in AtPrice(flat, p);
      SortedTail(side, flat);
    }
  }

  /** A maker put back leads its own price level and touches no other. */
  lemma {:induction false} ReinsertLevels(side: Side, flat: seq<Order>, o: Order, p: Price)
    requires Sorted(side, flat)
    ensures AtPrice(FlatReinsert(side, flat, o), p) == if p == o.price then [o] + AtPrice(flat, p) else AtPrice(flat, p)
  {
    var after := FlatReinsert(side, flat, o);
    if flat == [] || !Better(side, flat[0].price, o.price) {
      assert after[1..] == flat;
    } else {
      SortedTail(side, flat);
      ReinsertLevels(side, flat[1..], o, p);
      assert after[1..] == FlatReinsert(side, flat[1..], o);
    }
  }

  /** The levels determine the flat sequence: there is only one way to read a side in priority order. */
  lemma {:induction false} FlatIsUnique(side: Side, levels: map<Price, seq<Order>>, a: seq<Order>, b: seq<Order>)
    requires Represents(side, levels, a) && Represents(side, levels, b)
    ensures a == b
  {
    SameLevelsSameFlat(side, a, b);
  }

  /** And the flat sequence determines the levels: equal views mean equal sides. */
  lemma LevelsAreUnique(side: Side, levels: map<Price, seq<Order>>, levels': map<Price, seq<Order>>, flat: seq<Order>)
    requires Represents(side, levels, flat) && Represents(side, levels', flat)
    ensures levels == levels'
  {
    forall p: Price ensures p in levels <==> p in levels' {
      assert p in levels <==> AtPrice(flat, p) != [];
    }
  }

  lemma {:induction false} SameLevelsSameFlat(side: Side, a: seq<Order>, b: seq<Order>)
    requires Sorted(side, a) && Sorted(side, b)
    requires forall p: Price :: AtPrice(a, p) == AtPrice(b, p)
    ensures a == b
  {
    if b != [] {
      AtPriceSome(b, b[0]);
    }
    if a != [] {
      AtPriceMembers(a, a[0].price);
      AtPriceMembers(b, a[0].price);
      assert a[0] in AtPrice(b, a[0].price);
      AtPriceMembers(b, b[0].price);
      AtPriceMembers(a, b[0].price);
      assert b[0] in AtPrice(a, b[0].price);
      SortedTail(side, a);
      SortedTail(side, b);
      assert a == [a[0]] + a[1..] && b == [b[0]] + b[1..];
      assert a[0].price == b[0].price;
      assert AtPrice(a, a[0].price)[0] == a[0];
      assert AtPrice(b, a[0].price)[0] == b[0];
      forall p: Price ensures AtPrice(a[1..], p) == AtPrice(b[1..], p) {
        assert AtPrice(a, p) == AtPrice(b, p);
        if p == a[0].price {
          assert AtPrice(a, p)[1..] == AtPrice(a[1..], p);
          assert AtPrice(b, p)[1..] == AtPrice(b[1..], p);
        }
      }
      SameLevelsSameFlat(side, a[1..], b[1..]);
    }
  }

  lemma {:induction false} AtPriceUnfold(flat: seq<Order>, p: Price)
    requires flat != []
    ensures AtPrice(flat, p) == if flat[0].price == p then [flat[0]] + AtPrice(flat[1..], p) else AtPrice(flat[1..], p)
  {
  }

  // Where the i-th order of level p stands in the flat sequence.
  function FlatIndex(flat: seq<Order>, p: Price, i: nat): (k: nat)
    requires i < |AtPrice(flat, p)|
    ensures k < |flat| && flat[k] == AtPrice(flat, p)[i]
  {
    if flat[0].price == p then
      if i == 0 then 0 else 1 + FlatIndex(flat[1..], p, i - 1)
    else 1 + FlatIndex(flat[1..], p, i)
  }

  lemma {:induction false} RemoveFirst(flat: seq<Order>, p: Price)
    requires flat != [] && flat[0].price == p
    ensures AtPrice(flat[..0] + flat[1..], p) == AtPrice(flat, p)[..0] + AtPrice(flat, p)[1..]
  {
    assert flat[..0] + flat[1..] == flat[1..];
    AtPriceUnfold(flat, p);
  }

  lemma RemoveBehind<T>(o: T, rest: seq<T>, i: nat)
    requires 0 < i <= |rest|
    ensures ([o] + rest)[..i] + ([o] + rest)[i + 1..] == [o] + (rest[..i - 1] + rest[i..])
  {
  }

  /** Taking one order out of the flat sequence takes exactly that one out of its level. */
  lemma {:induction false} RemoveFromLevel(flat: seq<Order>, p: Price, i: nat)
    requires i < |AtPrice(flat, p)|
    ensures var k := FlatIndex(flat, p, i);
            AtPrice(flat[..k] + flat[k + 1..], p) == AtPrice(flat, p)[..i] + AtPrice(flat, p)[i + 1..]
  {
    var k, tail := FlatIndex(flat, p, i), flat[1..];
    AtPriceUnfold(flat, p);
    if k == 0 {
      RemoveFirst(flat, p);
    } else {
      RemovedTail(flat, k);
      AtPriceUnfold(flat[..k] + flat[k + 1..], p);
      if flat[0].price == p {
        RemoveFromLevel(tail, p, i - 1);
        RemoveBehind(flat[0], AtPrice(tail, p), i);
      } else {
        RemoveFromLevel(tail, p, i);
      }
    }
  }

  lemma {:induction false} RemoveElsewhere(flat: seq<Order>, k: nat, q: Price)
    requires k < |flat| && flat[k].price != q
    ensures AtPrice(flat[..k] + flat[k + 1..], q) == AtPrice(flat, q)
  {
    if k == 0 {
      assert flat[..0] + flat[1..] == flat[1..];
    } else {
      RemovedTail(flat, k);
      RemoveElsewhere(flat[1..], k - 1, q);
    }
  }

  lemma RemovedTail(flat: seq<Order>, k: nat)
    requires 0 < k < |flat|
    ensures var removed := flat[..k] + flat[k + 1..];
            removed != [] && removed[0] == flat[0] && removed[1..] == flat[1..][..k - 1] + flat[1..][k..]
  {
  }

  lemma {:induction false} FlatIndexUnfold(flat: seq<Order>, p: Price, i: nat)
    requires i < |AtPrice(flat, p)|
    ensures flat != []
    ensures flat[0].price == p && i == 0 ==> FlatIndex(flat, p, i) == 0
    ensures flat[0].price == p && i > 0 ==>
              && i - 1 < |AtPrice(flat[1..], p)|
              && FlatIndex(flat, p, i) == 1 + FlatIndex(flat[1..], p, i - 1)
    ensures flat[0].price != p ==>
              && i < |AtPrice(flat[1..], p)|
              && FlatIndex(flat, p, i) == 1 + FlatIndex(flat[1..], p, i)
  {
  }

  // An order of level p that stands before the i-th one is among the first i of the level.
  lemma {:induction false} FlatIndexOrder(flat: seq<Order>, p: Price, i: nat, j: nat) returns (m: nat)
    requires i < |AtPrice(flat, p)|
    requires j < |flat| && flat[j].price == p && j < FlatIndex(flat, p, i)
    ensures m < i && AtPrice(flat, p)[m] == flat[j]
  {
    AtPriceUnfold(flat, p);
    FlatIndexUnfold(flat, p, i);
    if j == 0 {
      m := 0;
    } else if flat[0].price == p {
      m := FlatIndexOrder(flat[1..], p, i - 1, j - 1);
      m := m + 1;
    } else {
      m := FlatIndexOrder(flat[1..], p, i, j - 1);
    }
  }

  // The order a cancel request means: the lowest price that holds the id, and there the earliest.
  ghost predicate IsCancelTarget(flat: seq<Order>, id: OrderId, k: nat) {
    && k < |flat|
    && flat[k].id == id
    && forall j | 0 <= j < |flat| && flat[j].id == id ::
         flat[k].price < flat[j].price || (flat[k].price == flat[j].price && k <= j)
  }

  // The reply to a cancel request and the side after it.
  ghost predicate Cancels(flat: seq<Order>, id: OrderId, r: Result<Order, DomainError>, flat': seq<Order>) {
    if forall o | o in flat :: o.id != id then r == Err(OrderNotFound) && flat' == flat
    else exists k: nat :: IsCancelTarget(flat, id, k) && r == CancelOrder(flat[k]) && flat' == flat[..k] + flat[k + 1..]
  }

  lemma TargetCancels(flat: seq<Order>, id: OrderId, r: Result<Order, DomainError>, k: nat)
    requires IsCancelTarget(flat, id, k) && r == CancelOrder(flat[k])
    ensures Cancels(flat, id, r, flat[..k] + flat[k + 1..])
  {
    assert flat[k] in flat;
  }

  lemma RemoveKeepsOrder(side: Side, flat: seq<Order>, k: nat)
    requires Sorted(side, flat) && Resting(side, flat) && k < |flat|
    ensures Sorted(side, flat[..k] + flat[k + 1..]) && Resting(side, flat[..k] + flat[k + 1..])
  {
    var rest := flat[..k] + flat[k + 1..];
    forall i, j | 0 <= i < j < |rest| ensures !Better(side, rest[j].price, rest[i].price) {
      assert rest[i] == flat[if i < k then i else i + 1];
      assert rest[j] == flat[if j < k then j else j + 1];
    }
  }

  // What a level is in the map of levels: absent means empty.
  predicate IsLevel(levels: map<Price, seq<Order>>, p: Price, queue: seq<Order>) {
    (p in levels <==> queue != []) && (p in levels ==> levels[p] == queue)
  }

  function DropAt(levels: map<Price, seq<Order>>, p: Price, i: nat): map<Price, seq<Order>>
    requires p in levels && i < |levels[p]|
  {
    if |levels[p]| == 1 then levels - {p} else levels[p := levels[p][..i] + levels[p][i + 1..]]
  }

  ghost predicate AllAreLevels(levels: map<Price, seq<Order>>, flat: seq<Order>) {
    forall q: Price :: IsLevel(levels, q, AtPrice(flat, q))
  }

  lemma {:induction false} OwnLevelAfterDrop(
    levels: map<Price, seq<Order>>, flat: seq<Order>, p: Price, i: nat, k: nat)
    requires p in levels && IsLevel(levels, p, AtPrice(flat, p)) && i < |levels[p]|
    requires k == FlatIndex(flat, p, i)
    ensures IsLevel(DropAt(levels, p, i), p, AtPrice(flat[..k] + flat[k + 1..], p))
  {
    RemoveFromLevel(flat, p, i);
  }

  lemma {:induction false} OtherLevelAfterDrop(
    levels: map<Price, seq<Order>>, flat: seq<Order>, p: Price, i: nat, k: nat, q: Price)
    requires p in levels && i < |levels[p]| && k < |flat| && flat[k].price == p
    requires q != p && IsLevel(levels, q, AtPrice(flat, q))
    ensures IsLevel(DropAt(levels, p, i), q, AtPrice(flat[..k] + flat[k + 1..], q))
  {
    RemoveElsewhere(flat, k, q);
  }

  lemma {:induction false} LevelsAfterDrop(
    levels: map<Price, seq<Order>>, flat: seq<Order>, p: Price, i: nat, k: nat)
    requires AllAreLevels(levels, flat)
    requires p in levels && IsLevel(levels, p, AtPrice(flat, p)) && i < |levels[p]|
    requires k == FlatIndex(flat, p, i) && flat[k].price == p
    ensures AllAreLevels(DropAt(levels, p, i), flat[..k] + flat[k + 1..])
  {
    var levels', flat' := DropAt(levels, p, i), flat[..k] + flat[k + 1..];
    forall q: Price ensures IsLevel(levels', q, AtPrice(flat', q)) {
      assert IsLevel(levels, q, AtPrice(flat, q));
      if q == p {
        OwnLevelAfterDrop(levels, flat, p, i, k);
      } else {
        OtherLevelAfterDrop(levels, flat, p, i, k, q);
      }
    }
  }

  lemma LevelsRepresent(side: Side, levels: map<Price, seq<Order>>, flat: seq<Order>)
    requires Sorted(side, flat) && Resting(side, flat)
    ensures Represents(side, levels, flat) <==> AllAreLevels(levels, flat)
  {
    if Represents(side, levels, flat) {
      forall q: Price ensures IsLevel(levels, q, AtPrice(flat, q)) {
      }
    }
    if AllAreLevels(levels, flat) {
      forall q: Price
        ensures (q in levels <==> AtPrice(flat, q) != []) && (q in levels ==> levels[q] == AtPrice(flat, q))
      {
        assert IsLevel(levels, q, AtPrice(flat, q));
      }
    }
  }

  lemma {:induction false} FlatIndexPrice(flat: seq<Order>, p: Price, i: nat)
    requires i < |AtPrice(flat, p)|
    ensures flat[FlatIndex(flat, p, i)].price == p
  {
    AtPriceMembers(flat, p);
    assert flat[FlatIndex(flat, p, i)] in AtPrice(flat, p);
  }

  /** Dropping one order from its queue, and the queue when it empties, drops it from the flat view. */
  lemma {:induction false} RemovalRepresents(
    side: Side, levels: map<Price, seq<Order>>, flat: seq<Order>, p: Price, i: nat)
    requires Represents(side, levels, flat)
    requires p in levels && i < |levels[p]|
    ensures var k := FlatIndex(flat, p, i);
            Represents(side, DropAt(levels, p, i), flat[..k] + flat[k + 1..])
  {
    var k := FlatIndex(flat, p, i);
    LevelsRepresent(side, levels, flat);
    FlatIndexPrice(flat, p, i);
    LevelsAfterDrop(levels, flat, p, i, k);
    RemoveKeepsOrder(side, flat, k);
    LevelsRepresent(side, DropAt(levels, p, i), flat[..k] + flat[k + 1..]);
  }

  predicate IsBestKey(side: Side, levels: map<Price, seq<Order>>, p: Price) {
    p in levels && forall q | q in levels :: !Better(side, q, p)
  }

  // The last key of a sorted map for bids, the first for asks.
  function BestKey(side: Side, levels: map<Price, seq<Order>>): (r: Option<Price>)
    requires levels != map[] ==> exists p :: IsBestKey(side, levels, p)
    ensures levels == map[] ==> r == None
    ensures forall p: Price | IsBestKey(side, levels, p) :: r == Some(p)
  {
    if levels == map[] then None
    else
      var p :| IsBestKey(side, levels, p);
      Some(p)
  }

  lemma {:induction false} EmptyHasNoLevels(side: Side, levels: map<Price, seq<Order>>)
    requires Represents(side, levels, [])
    ensures levels == map[]
  {
    forall p: Price ensures p !in levels {
      assert AtPrice([], p) == [];
    }
  }

  lemma {:induction false} FirstIsBest(side: Side, levels: map<Price, seq<Order>>, flat: seq<Order>)
    requires Represents(side, levels, flat) && flat != []
    ensures IsBestKey(side, levels, flat[0].price)
  {
    AtPriceSome(flat, flat[0]);
    SortedTail(side, flat);
    assert flat == [flat[0]] + flat[1..];
    forall q | q in levels ensures !Better(side, q, flat[0].price) {
      AtPriceMembers(flat, q);
      assert AtPrice(flat, q)[0] in AtPrice(flat, q);
    }
  }

  class OrderBookSide {
    const side: Side
    var levels: map<Price, seq<Order>>
    ghost var flat: seq<Order>

    ghost predicate Valid()
      reads this
    {
      Represents(side, levels, flat)
    }

    constructor (side: Side)
      ensures this.side == side
      ensures Valid() && flat == []
    {
      this.side := side;
      levels := map[];
      flat := [];
    }

    // A clone shares nothing with its original.
    constructor Clone(that: OrderBookSide)
      requires that.Valid()
      ensures side == that.side && levels == that.levels && flat == that.flat
      ensures Valid()
    {
      side := that.side;
      levels := that.levels;
      flat := that.flat;
    }

    function BestPrice(): (r: Option<Price>)
      reads this
      requires Valid()
      ensures r == if flat == [] then None else Some(flat[0].price)
    {
      BestIsFirst();
      BestKey(side, levels)
    }

    lemma BestIsFirst()
      requires Valid()
      ensures flat == [] <==> levels == map[]
      ensures flat != [] ==>
                var p := flat[0].price;
                p in levels && levels[p] == [flat[0]] + AtPrice(flat[1..], p)
      ensures flat != [] ==> IsBestKey(side, levels, flat[0].price)
    {
      if flat == [] {
        EmptyHasNoLevels(side, levels);
      } else {
        AtPriceUnfold(flat, flat[0].price);
        FirstIsBest(side, levels, flat);
      }
    }

    function BestOrder(): (r: Option<Order>)
      reads this
      requires Valid()
      ensures r == if flat == [] then None else Some(flat[0])
    {
      BestIsFirst();
      match BestPrice()
      case None => None
      case Some(p) => Some(levels[p][0])
    }

    method Insert(order: Order) returns (r: Result<(), DomainError>)
      requires Valid()
      modifies this
      ensures Valid()
      ensures r == if order.side != side then Err(WrongOrderSide)
                   else if order.IsTerminal() then Err(OrderAlreadyTerminal) else Ok(())
      ensures flat == if r.Ok? then FlatInsert(side, old(flat), order) else old(flat)
    {
      if order.side != side {
        return Err(WrongOrderSide);
      }
      if order.IsTerminal() {
        return Err(OrderAlreadyTerminal);
      }
      var level := if order.price in levels then levels[order.price] else [];
      levels := levels[order.price := level + [order]];
      InsertMembers(side, flat, order);
      InsertSorted(side, flat, order);
      forall p: Price ensures AtPrice(FlatInsert(side, flat, order), p) ==
                              if p == order.price then AtPrice(flat, p) + [order] else AtPrice(flat, p) {
        InsertLevels(side, flat, order, p);
      }
      flat := FlatInsert(side, flat, order);
      r := Ok(());
    }

    method ReinsertFront(order: Order) returns (r: Result<(), DomainError>)
      requires Valid()
      modifies this
      ensures Valid()
      ensures r == if order.side != side then Err(WrongOrderSide)
                   else if order.IsTerminal() then Err(OrderAlreadyTerminal) else Ok(())
      ensures flat == if r.Ok? then FlatReinsert(side, old(flat), order) else old(flat)
    {
      if order.side != side {
        return Err(WrongOrderSide);
      }
      if order.IsTerminal() {
        return Err(OrderAlreadyTerminal);
      }
      var level := if order.price in levels then levels[order.price] else [];
      levels := levels[order.price := [order] + level];
      ReinsertMembers(side, flat, order);
      ReinsertSorted(side, flat, order);
      forall p: Price ensures AtPrice(FlatReinsert(side, flat, order), p) ==
                              if p == order.price then [order] + AtPrice(flat, p) else AtPrice(flat, p) {
        ReinsertLevels(side, flat, order, p);
      }
      flat := FlatReinsert(side, flat, order);
      r := Ok(());
    }

    method PopBestOrder() returns (r: Option<Order>)
      requires Valid()
      modifies this
      ensures Valid()
      ensures old(flat) == [] ==> r == None && flat == []
      ensures old(flat) != [] ==> r == Some(old(flat)[0]) && flat == old(flat)[1..]
    {
      BestIsFirst();
      var best := BestPrice();
      if best == None {
        return None;
      }
      var price := best.value;
      var level := levels[price];
      r := Some(level[0]);
      levels := levels[price := level[1..]];
      if |level| == 1 {
        levels := levels - {price};
      }
      SortedTail(side, flat);
      forall p: Price ensures AtPrice(flat, p) ==
                              if flat[0].price == p then [flat[0]] + AtPrice(flat[1..], p) else AtPrice(flat[1..], p) {
        AtPriceUnfold(flat, p);
      }
      flat := flat[1..];
    }

    // The first position of an id in a queue, or its length.
    static method Position(orders: seq<Order>, id: OrderId) returns (i: nat)
      ensures i <= |orders|
      ensures forall j | 0 <= j < i :: orders[j].id != id
      ensures i < |orders| ==> orders[i].id == id
    {
      i := 0;
      while i < |orders| && orders[i].id != id
        invariant i <= |orders|
        invariant forall j | 0 <= j < i :: orders[j].id != id
      {
        i := i + 1;
      }
    }

    // Takes the i-th order out of its queue and drops a queue that empties.
    method RemoveAt(price: Price, i: nat)
      requires Valid() && price in levels && i < |levels[price]|
      modifies this
      ensures Valid()
      ensures var k := FlatIndex(old(flat), price, i); flat == old(flat)[..k] + old(flat)[k + 1..]
    {
      RemovalRepresents(side, levels, flat, price, i);
      ghost var k := FlatIndex(flat, price, i);
      var orders := levels[price];
      levels := levels[price := orders[..i] + orders[i + 1..]];
      if |orders| == 1 {
        levels := levels - {price};
      }
      flat := flat[..k] + flat[k + 1..];
    }

    // Visits the levels in ascending price order, as the sorted map does.
    method Find(id: OrderId) returns (at: Option<(Price, nat)>)
      requires Valid()
      ensures at.None? ==> forall o | o in flat :: o.id != id
      ensures at.Some? ==>
                var (price, i) := at.value;
                && price in levels && i < |levels[price]|
                && IsCancelTarget(flat, id, FlatIndex(flat, price, i))
    {
      var prices := levels.Keys;
      forall o | o in flat ensures o.price in levels {
        AtPriceSome(flat, o);
      }
      while prices != {}
        invariant prices <= levels.Keys
        invariant forall o | o in flat && o.price !in prices :: o.id != id
        decreases |prices|
      {
        ghost var least := Least(prices);
        var price :| price in prices && forall q | q in prices :: price <= q;
        var i := Position(levels[price], id);
        if i < |levels[price]| {
          CancelTargetFound(prices, price, i, id);
          return Some((price, i));
        }
        AtPriceMembers(flat, price);
        prices := prices - {price};
      }
      at := None;
    }

    method Cancel(id: OrderId) returns (r: Result<Order, DomainError>)
      requires Valid()
      modifies this
      ensures Valid()
      ensures Cancels(old(flat), id, r, flat)
    {
      var at := Find(id);
      if at.None? {
        return Err(OrderNotFound);
      }
      var (price, i) := at.value;
      ghost var was, k := flat, FlatIndex(flat, price, i);
      var order := levels[price][i];
      r := CancelOrder(order);
      RemoveAt(price, i);
      TargetCancels(was, id, r, k);
    }

    lemma {:induction false} CancelTargetFound(prices: set<Price>, price: Price, i: nat, id: OrderId)
      requires Valid() && prices <= levels.Keys && price in prices
      requires forall p | p in prices :: price <= p
      requires forall o | o in flat && o.price !in prices :: o.id != id
      requires i < |levels[price]| && levels[price][i].id == id
      requires forall j | 0 <= j < i :: levels[price][j].id != id
      ensures IsCancelTarget(flat, id, FlatIndex(flat, price, i))
      ensures FlatIndex(flat, price, i) < |flat| && flat[FlatIndex(flat, price, i)] == levels[price][i]
      ensures flat[FlatIndex(flat, price, i)] in flat
    {
      var k := FlatIndex(flat, price, i);
      AtPriceMembers(flat, price);
      assert levels[price][i] in AtPrice(flat, price);
      forall j | 0 <= j < |flat| && flat[j].id == id
        ensures price < flat[j].price || (price == flat[j].price && k <= j)
      {
        assert flat[j] in flat;
        if flat[j].price == price && j < k {
          var m := FlatIndexOrder(flat, price, i, j);
        }
      }
    }
  }

  lemma {:induction false} Least(s: set<Price>) returns (least: Price)
    requires s != {}
    ensures least in s && forall q | q in s :: least <= q
    decreases |s|
  {
    var x :| x in s;
    if s == {x} {
      return x;
    }
    var y := Least(s - {x});
    least := if x <= y then x else y;
    assert s == (s - {x}) + {x};
  }
}
