/** Shared value types: optional values, results of operations that can fail,
    entity identifiers and the error kinds the domain raises. */
module Foundation {

  /** An opaque entity identifier (a GUID in the application). */
  type Guid = int

  /** A value that may be absent; `None` also stands for a C# `null`. */
  datatype Option<+T> = None | Some(value: T) {
    function GetOr(default: T): (r: T)
      ensures Some? ==> r == value
      ensures None? ==> r == default
    {
      match this
      case Some(v) => v
      case None => default
    }
  }

  /** Which validated text field an argument error is about. */
  datatype Field = InvoiceNumberField | DescriptionField | NameField | EmailField

  /** Which repository a lookup failed in. */
  datatype EntityKind = CustomerEntity | InvoiceEntity | LineItemEntity

  /** The exceptions the domain and the application service throw, one
      constructor per business error code. */
  datatype Error =
    | ArgumentInvalid(field: Field)              // Check.NotNullOrWhiteSpace
    | DateCannotBeInFuture                       // Invoice:DateCannotBeInFuture
    | DueDateMustBeAfterInvoiceDate              // Invoice:DueDateMustBeAfterInvoiceDate
    | CannotChangeStatusOfCancelledInvoice       // Invoice:CannotChangeStatusOfCancelledInvoice
    | CannotModifyPaidInvoice                    // Invoice:CannotModifyPaidInvoice
    | QuantityMustBeGreaterThanZero              // LineItem:QuantityMustBeGreaterThanZero
    | UnitPriceCannotBeNegative                  // LineItem:UnitPriceCannotBeNegative
    | CannotEditInvoice                          // Invoice:CannotEditInvoice
    | LineItemDoesNotBelongToInvoice             // Invoice:LineItemDoesNotBelongToInvoice
    | EntityNotFound(kind: EntityKind, id: Guid) // repository GetAsync on a missing id

  /** The value an operation produces, or the exception it throws. */
  datatype Result<+T> = Ok(value: T) | Err(error: Error)

  /** The outcome of an operation that returns nothing: it completes or throws. */
  datatype Outcome = Pass | Fail(error: Error)
}
