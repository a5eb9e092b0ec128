/** Option and Result, standing for the source's `T | null` returns and thrown errors. */
module Wrappers {

  /** `None` is the source's `null`. */
  datatype Option<+T> = None | Some(value: T) {
    /** The value if present, else `default`: how a spread `{ ...c, ...u }` picks each field. */
    function GetOr(default: T): T {
      if Some? then value else default
    }
  }

  /** `Err` is a thrown `Error`: the call fails with that error. */
  datatype Result<+T, +E> = Ok(value: T) | Err(error: E)
}

/** The errors the services throw, one constructor per message. */
module Errors {
  import opened Keyed

  datatype Error =
    | PaymentFailed(orderId: Id)          // "Payment failed for order <id>"
    | OrderNotFound(orderId: Id)          // "Order with ID <id> not found"
    | UserNotFound(email: string)         // "User with email <e> not found"
    | UserExists(email: string)           // "User with email <e> already exists"
    | InvalidInput                        // hardened variant only: empty or malformed items
    | InsufficientStock(productId: Id)    // hardened variant only: the order would oversell
}
