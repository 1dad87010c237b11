/** Numbers, identifiers, results and errors shared by the exchange layers. */
module Types {

  const TWO_64: int := 0x1_0000_0000_0000_0000
  const TWO_128: int := 0x1_0000_0000_0000_0000_0000_0000_0000_0000

  // The machine integers of the source, as ranges of the unbounded integers.
  type U64 = x: int | 0 <= x < TWO_64
  type Price = x: int | 0 < x < TWO_64 witness 1
  type Quantity = x: int | 0 < x < TWO_64 witness 1
  type TraderId = x: int | 0 < x < TWO_64 witness 1
  type AssetId = x: int | 0 < x < 0x1_0000_0000 witness 1
  type MarketId = x: int | 0 < x < 0x1_0000_0000 witness 1
  type OrderId = x: int | 0 < x < TWO_128 witness 1
  type CommandId = x: int | 0 < x < TWO_128 witness 1
  type OrderSequence = x: int | 0 < x < TWO_64 witness 1

  type Byte = b: int | 0 <= b < 256

  const DEFAULT_KEY_BYTES: seq<Byte> := [
    0, 0, 0, 0, 0, 0, 0, 0, 0, 0, 0, 0, 0, 0, 0, 0,
    0, 0, 0, 0, 0, 0, 0, 0, 0, 0, 0, 0, 0, 0, 0, 0]

  type Pubkey = k: seq<Byte> | |k| == 32 witness DEFAULT_KEY_BYTES

  const DEFAULT_KEY: Pubkey := DEFAULT_KEY_BYTES

  // The key that stands for no key.
  lemma DefaultKeyIsZeros()
    ensures forall b | b in DEFAULT_KEY :: b == 0
  {
  }

  datatype Side = Bid | Ask {
    function Opposite(): Side {
      if this == Bid then Ask else Bid
    }
  }

  datatype Option<+T> = None | Some(value: T)

  datatype Result<+T, +E> = Ok(value: T) | Err(error: E) {
    predicate IsFailure() {
      Err?
    }

    function PropagateFailure<U>(): Result<U, E>
      requires Err?
    {
      Err(error)
    }

    function Extract(): T
      requires Ok?
    {
      value
    }
  }

  datatype DomainError =
    | ArithmeticOverflow
    | FillExceedsRemainingQuantity
    | OrderAlreadyTerminal
    | WrongOrderSide
    | OrderNotFound
    | NoMatchingOrder
    | AmountConversionOverflow
    | InsufficientAvailableBalance
    | InsufficientReservedBalance

  datatype AppError =
    | Domain(error: DomainError)
    | DuplicateCommand
    | ReplayMismatch
    | JournalAppendFailed

  // A market trades two different assets; the constructor in the source refuses anything else.
  datatype MarketRecord = MarketRecord(base: AssetId, quote: AssetId)
  type Market = m: MarketRecord | m.base != m.quote witness MarketRecord(1, 2)
}
