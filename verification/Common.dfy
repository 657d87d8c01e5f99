/**
 Vocabulary shared by every module: identifiers, trade directions and the two
 failure-carrying wrappers. Share quantities are reals; clocks are integers.
 */
module Common {

  datatype Option<+T> = None | Some(value: T)

  datatype Result<+T, +E> = Ok(value: T) | Err(error: E)

  type Symbol = string
  type Time = int

  /** Identity of an onchain fill: the transaction hash and the index of its log entry. */
  datatype TradeId = TradeId(txHash: nat, logIndex: nat)

  type OrderId = nat

  datatype Direction = Buy | Sell

  /** SQLite stores integers as i64; larger values cannot be written or compared. */
  const I64_MAX: nat := 0x7FFF_FFFF_FFFF_FFFF

  /** A buy adds shares to the net position, a sell removes them. */
  function Signed(direction: Direction, shares: real): (r: real)
  {
    match direction
    case Buy => shares
    case Sell => -shares
  }

  predicate Distinct<T(==)>(items: seq<T>)
  {
    forall i, j :: 0 <= i < j < |items| ==> items[i] != items[j]
  }

  function Min(a: nat, b: nat): nat { if a < b then a else b }
}
