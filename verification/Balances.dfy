/** Per-trader balances and the reservation an order needs. */
module Balances {
  import opened Types
  import opened Orders

  datatype Balance = Balance(available: U64, reserved: U64)

  const EMPTY_BALANCE := Balance(0, 0)

  type Balances = map<(TraderId, AssetId), Balance>

  function BalanceOf(balances: Balances, trader: TraderId, asset: AssetId): Balance {
    if (trader, asset) in balances then balances[(trader, asset)] else EMPTY_BALANCE
  }

  function CreditAvailable(b: Balance, amount: U64): Result<Balance, DomainError> {
    if b.available + amount >= TWO_64 then Err(ArithmeticOverflow) else Ok(b.(available := b.available + amount))
  }

  // An overflow of the reserved side is noticed only after the available side has been lowered.
  function ReserveAmount(b: Balance, amount: U64): (Result<(), DomainError>, Balance) {
    if b.available < amount then (Err(InsufficientAvailableBalance), b)
    else
      var lowered := b.(available := b.available - amount);
      if lowered.reserved + amount >= TWO_64 then (Err(ArithmeticOverflow), lowered)
      else (Ok(()), lowered.(reserved := lowered.reserved + amount))
  }

  function ReleaseAmount(b: Balance, amount: U64): (Result<(), DomainError>, Balance) {
    if b.reserved < amount then (Err(InsufficientReservedBalance), b)
    else
      var lowered := b.(reserved := b.reserved - amount);
      if lowered.available + amount >= TWO_64 then (Err(ArithmeticOverflow), lowered)
      else (Ok(()), lowered.(available := lowered.available + amount))
  }

  function DebitAmount(b: Balance, amount: U64): (Result<(), DomainError>, Balance) {
    if b.reserved < amount then (Err(InsufficientReservedBalance), b)
    else (Ok(()), b.(reserved := b.reserved - amount))
  }

  /** A release undoes a reservation, and a debit takes exactly the reserved amount out of the account. */
  lemma ReservationEnds(b: Balance, amount: U64)
    requires ReserveAmount(b, amount).0.Ok?
    ensures var held := ReserveAmount(b, amount).1;
            && ReleaseAmount(held, amount) == (Ok(()), b)
            && DebitAmount(held, amount) == (Ok(()), b.(available := b.available - amount))
  {
  }

  /** When each operation succeeds, and that its refusals are true. */
  lemma RefusalsAreTrue(b: Balance, amount: U64)
    ensures match CreditAvailable(b, amount)
            case Ok(b') => b' == Balance(b.available + amount, b.reserved)
            case Err(e) => e == ArithmeticOverflow && b.available + amount >= TWO_64
    ensures match ReserveAmount(b, amount).0
            case Ok(_) => ReserveAmount(b, amount).1 == Balance(b.available - amount, b.reserved + amount)
            case Err(e) => if amount > b.available then e == InsufficientAvailableBalance
                           else e == ArithmeticOverflow && b.reserved + amount >= TWO_64
    ensures match ReleaseAmount(b, amount).0
            case Ok(_) => ReleaseAmount(b, amount).1 == Balance(b.available + amount, b.reserved - amount)
            case Err(e) => if amount > b.reserved then e == InsufficientReservedBalance
                           else e == ArithmeticOverflow && b.available + amount >= TWO_64
    ensures match DebitAmount(b, amount).0
            case Ok(_) => DebitAmount(b, amount).1 == Balance(b.available, b.reserved - amount)
            case Err(e) => e == InsufficientReservedBalance && amount > b.reserved
  {
  }

  /** A balance operation that fails is not atomic: it changes the balance exactly when the far side overflows. */
  lemma FailureLeavesTrace(b: Balance, amount: U64)
    ensures ReserveAmount(b, amount).0.Err? && ReserveAmount(b, amount).1 != b
            <==> amount <= b.available && b.reserved + amount >= TWO_64
    ensures ReleaseAmount(b, amount).0.Err? && ReleaseAmount(b, amount).1 != b
            <==> amount <= b.reserved && b.available + amount >= TWO_64
  {
  }

  /** Inputs that leave a trace, reached by ordinary calls: after crediting and reserving the largest amount and
      crediting one more, a further reservation of 1 loses the 1, and a release loses the whole amount. */
  lemma FailureExample()
    ensures var most := TWO_64 - 1;
            var held := ReserveAmount(CreditAvailable(EMPTY_BALANCE, most).value, most).1;
            var b := CreditAvailable(held, 1).value;
            && b == Balance(1, most)
            && ReserveAmount(b, 1) == (Err(ArithmeticOverflow), Balance(0, most))
            && ReleaseAmount(b, most) == (Err(ArithmeticOverflow), Balance(1, 0))
  {
  }

  datatype Reservation = Reservation(trader: TraderId, asset: AssetId, amount: U64)

  lemma ProductBound(a: nat, b: nat, bound: nat)
    requires a <= bound
    ensures a * b <= bound * b
  {
    assert (bound - a) * b >= 0;
  }

  // The widened product never overflows 128 bits, so it has no error case.
  function QuoteCost(price: Price, quantity: Quantity): (cost: nat)
    ensures 0 < cost < TWO_128
  {
    ProductBound(price, quantity, TWO_64 - 1);
    ProductBound(1, quantity, price);
    price * quantity
  }

  // A bid reserves its limit price times its original quantity, an ask its original quantity.
  function ReservationFor(order: Order, market: Market): Result<Reservation, DomainError> {
    match order.side
    case Bid =>
      var cost := QuoteCost(order.price, order.original);
      if cost >= TWO_64 then Err(AmountConversionOverflow) else Ok(Reservation(order.trader, market.quote, cost))
    case Ask => Ok(Reservation(order.trader, market.base, order.original))
  }

  function Credited(balances: Balances, trader: TraderId, asset: AssetId, amount: U64): Result<Balances, DomainError> {
    var credited :- CreditAvailable(BalanceOf(balances, trader, asset), amount);
    Ok(balances[(trader, asset) := credited])
  }

  function Reserved(balances: Balances, res: Reservation): Result<Balances, DomainError> {
    var (outcome, b) := ReserveAmount(BalanceOf(balances, res.trader, res.asset), res.amount);
    if outcome.Err? then Err(outcome.error) else Ok(balances[(res.trader, res.asset) := b])
  }

  class BalanceSheet {
    var balances: Balances

    constructor ()
      ensures balances == map[]
    {
      balances := map[];
    }

    constructor Clone(that: BalanceSheet)
      ensures balances == that.balances
    {
      balances := that.balances;
    }

    // A refused credit leaves the sheet as it was: an absent entry starts empty and cannot overflow.
    method CreditTo(trader: TraderId, asset: AssetId, amount: U64) returns (r: Result<(), DomainError>)
      modifies this
      ensures match Credited(old(balances), trader, asset, amount)
              case Ok(credited) => r == Ok(()) && balances == credited
              case Err(e) => r == Err(e) && balances == old(balances)
    {
      var entry := BalanceOf(balances, trader, asset);
      balances := balances[(trader, asset) := entry];
      var credited :- CreditAvailable(entry, amount);
      balances := balances[(trader, asset) := credited];
      r := Ok(());
    }

    // A refused reservation may leave an empty entry behind, or a lowered available amount.
    method Reserve(res: Reservation) returns (r: Result<(), DomainError>)
      modifies this
      ensures match Reserved(old(balances), res)
              case Ok(reserved) => r == Ok(()) && balances == reserved
              case Err(e) =>
                var left := ReserveAmount(BalanceOf(old(balances), res.trader, res.asset), res.amount).1;
                r == Err(e) && balances == old(balances)[(res.trader, res.asset) := left]
    {
      var entry := BalanceOf(balances, res.trader, res.asset);
      var (outcome, b) := ReserveAmount(entry, res.amount);
      balances := balances[(res.trader, res.asset) := b];
      r := outcome;
    }

    method Release(res: Reservation) returns (r: Result<(), DomainError>)
      modifies this
      ensures var (outcome, b) := ReleaseAmount(BalanceOf(old(balances), res.trader, res.asset), res.amount);
              r == outcome && balances == old(balances)[(res.trader, res.asset) := b]
    {
      var (outcome, b) := ReleaseAmount(BalanceOf(balances, res.trader, res.asset), res.amount);
      balances := balances[(res.trader, res.asset) := b];
      r := outcome;
    }

    method DebitReserved(res: Reservation) returns (r: Result<(), DomainError>)
      modifies this
      ensures var (outcome, b) := DebitAmount(BalanceOf(old(balances), res.trader, res.asset), res.amount);
              r == outcome && balances == old(balances)[(res.trader, res.asset) := b]
    {
      var (outcome, b) := DebitAmount(BalanceOf(balances, res.trader, res.asset), res.amount);
      balances := balances[(res.trader, res.asset) := b];
      r := outcome;
    }
  }
}
