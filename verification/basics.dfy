/** Optional values, results that carry the billing engine's error codes, minimum and maximum. */
module Basics {

  datatype Option<+T> = None | Some(value: T)
  {
    function Or(other: T): T {
      if Some? then value else other
    }
  }

  datatype ErrorCode =
    | InvalidRequest
    | ValidationError
    | CurrencyMismatch
    | InvalidBillingInterval
    | InvalidStateTransition
    | InvoiceNotFound
    | InvoiceAlreadyPaid
    | InvoiceNotPayable
    | NoEligiblePaymentProvider
    | PaymentFailed
    | PaymentAttemptNotFound
    | IdempotencyKeyReuse
    | ProviderTimeout
    | ProviderError
    | RequestInProgress
    | SubscriptionAlreadyCanceled

  /** A thrown BillingError becomes Err; inside a transaction it also means rollback. */
  datatype Result<+T> = Ok(value: T) | Err(error: ErrorCode)
  {
    predicate IsFailure() { Err? }

    function PropagateFailure<U>(): Result<U>
      requires Err?
    {
      Err(error)
    }

    function Extract(): T
      requires Ok?
    {
      value
    }
  }

  function Min(a: int, b: int): int { if a <= b then a else b }

  function Max(a: int, b: int): int { if a >= b then a else b }
}
