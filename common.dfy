/** Identifiers, optional values and the typed failures shared by every service. */
module Common {

  /** Document ids and gateway references are opaque strings. */
  type UId = string
  type PId = string
  type OId = string

  datatype Option<+T> = None | Some(value: T) {
    function GetOr(default: T): T {
      match this
      case Some(v) => v
      case None => default
    }
  }

  /** The exceptions the services raise; `requested` and `available` are the
      fields of InsufficientStockException. */
  datatype Error =
    | NotFound(resource: string)
    | BadRequest(message: string)
    | InsufficientStock(productName: string, requested: int, available: int)
    | PaymentFailed(message: string)
    | DuplicateKey(index: string)
    | NonUniqueResult(query: string)

  /** A value or the exception that replaced it. */
  datatype Result<+T> = Ok(value: T) | Err(error: Error)

  /** The outcome of a `void` operation. */
  datatype Outcome = Pass | Fail(error: Error)

  /** Java's `Math.max(0, x)`. */
  function Max0(x: int): nat {
    if x < 0 then 0 else x
  }
}
