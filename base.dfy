/**
 * Shared vocabulary of the model: optional values, results that carry the
 * exceptions the Sage interface raises, table cells whose type can change
 * across a JSON round trip, and the money-rounding function.
 */
module Base {

  datatype Option<+T> = None | Some(value: T)

  /** The outcome of an operation that may raise one of the exceptions below. */
  datatype Result<+T> = Success(value: T) | Failure(error: Error) {
    predicate IsFailure() { Failure? }

    function PropagateFailure<U>(): Result<U>
      requires Failure?
    {
      Failure(error)
    }

    function Extract(): T
      requires Success?
    {
      value
    }
  }

  /** The exceptions that reach the callers of the modelled code. */
  datatype Error =
    | NoData(reference: string)                    // PySageError: no journal row matches an invoice
    | UnmatchedField(field: string)                // PySageError: field not known to the lookup
    | Reconciliation(net: int, vat: int, gross: int) // PySageError: net + vat != gross
    | GrossMismatch(exDiscount: int, gross: int)   // PySageError: gross without discount rows differs
    | ZeroDivision                                 // ZeroDivisionError from the tax-rate formula
    | KeyError(key: string)                        // a missing dictionary key or table column
    | FileNotFound(file: string)                   // FileNotFoundError: no such file
    | ValueError(text: string)                     // int() of a string that is not a number

  /** The exceptions of the package's own class PySageError. */
  predicate IsPySageError(e: Error)
  {
    e.NoData? || e.UnmatchedField? || e.Reconciliation? || e.GrossMismatch?
  }

  /**
   * A cell of an identifier column. The database delivers text; reading a
   * cached JSON snapshot back may turn numeric-looking text into a number.
   */
  datatype Cell = Str(s: string) | Num(n: int)

  /** Dates are abstract, totally ordered day numbers. */
  type Date = int

  /**
   * Rounding to currency precision (the `p` function the package imports).
   * Amounts are whole pence throughout the model, so rounding leaves them as
   * they are.
   */
  function P(pence: int): int
  {
    pence
  }
}
