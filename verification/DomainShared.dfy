/** The invoice status enumeration and the field length limits shared by the
    entities. */
module DomainShared {

  /** The lifecycle states of an invoice (Draft = 0 ... Cancelled = 4). */
  datatype InvoiceStatus = Draft | Pending | Sent | Paid | Cancelled

  const MaxInvoiceNumberLength: nat := 50
  const MaxDescriptionLength: nat := 500
  const MaxNameLength: nat := 200
  const MaxEmailLength: nat := 256
  const MaxPhoneLength: nat := 50
  const MaxBillingAddressLength: nat := 500
}
