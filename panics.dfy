/** Loud failures of the backtester core.

    The Go code aborts with `panic` (or dies on a nil pointer) whenever a caller breaks
    one of its usage rules.  The model turns each abort into a tagged value, so that a
    caller cannot continue silently past it.
 */
module Panics {

  /** Why an operation aborted. */
  datatype Panic =
    | AssetNameMismatch     // Asset.Change with a delta for another asset
    | DifferentSides        // isLessThan on a BUY and a SELL order
    | UnsupportedOrderType  // isLessThan / canMatch on a type other than MARKET and LIMIT
    | NotMarketOrder        // matchMarket given a LIMIT (or other) order
    | MissingPrice          // Balance.Total for an asset without a price
    | NilDereference        // a nil pointer dereferenced (nil tick, nil balance, nil argument)

  /** The value of an operation that either returns or panics. */
  datatype Result<T> = Ok(value: T) | Panicked(reason: Panic)

  /** The effect of an operation with no result that either completes or panics. */
  datatype Outcome = Pass | Fail(reason: Panic)
}
