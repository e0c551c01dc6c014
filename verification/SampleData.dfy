/** The first invoice the data seeder creates, replayed on the invoice
    aggregate: two line items on a Draft invoice with a tax of 50, then
    marked Paid, after which the invoice refuses further line items. */
module SampleData {
  import opened Foundation
  import opened Calendar
  import opened DomainShared
  import opened LineItems
  import opened Invoices
  import Check

  const DevelopmentDescription := "Website Development Services"
  const HostingDescription := "Hosting Setup and Configuration"

  /** Both seeded descriptions pass the description rule. */
  lemma SeedDescriptionsAreValid()
    ensures IsValidDescription(Some(DevelopmentDescription))
    ensures IsValidDescription(Some(HostingDescription))
  {
    Check.ShortVisibleTextPasses(DevelopmentDescription, DescriptionField, MaxDescriptionLength);
    Check.ShortVisibleTextPasses(HostingDescription, DescriptionField, MaxDescriptionLength);
  }

  /** Two line items add up to the sum of their totals. */
  lemma SumOfTwo(a: LineItem, b: LineItem)
    ensures SumOfTotals([a, b]) == a.Total() + b.Total()
  {
    assert SumOfTotals([a]) == a.Total() by {
      assert [a][..0] == [];
    }
    assert [a, b][..1] == [a];
  }

  /** The seeded invoice dated thirty days back and due fifteen days back
      (any two such days that are not in the future and in that order). */
  method SeedPaidInvoice(invoiceId: Guid, customerId: Guid, invoiceNumber: string,
                         invoiceDate: DateTime, dueDate: DateTime, now: DateTime,
                         hostingId: Guid, developmentId: Guid, lateId: Guid)
    returns (subTotal: real, grandTotal: real, status: InvoiceStatus, lateAdd: Outcome, lateSubTotal: real)
    requires Check.NotNullOrWhiteSpace(Some(invoiceNumber), InvoiceNumberField, MaxInvoiceNumberLength).Ok?
    requires DayOrdinal(invoiceDate) <= DayOrdinal(dueDate) <= DayOrdinal(now)
    ensures subTotal == 5500.0 && grandTotal == 5550.0 && status == Paid
    ensures lateAdd == Fail(CannotModifyPaidInvoice) && lateSubTotal == subTotal
  {
    SeedDescriptionsAreValid();
    subTotal, grandTotal, status, lateAdd, lateSubTotal :=
      SeedPaidInvoiceWith(invoiceId, customerId, invoiceNumber, invoiceDate, dueDate, now,
                          hostingId, developmentId, lateId, DevelopmentDescription, HostingDescription);
  }

  /** The same sequence of steps for any two descriptions that pass the
      description rule. */
  method SeedPaidInvoiceWith(invoiceId: Guid, customerId: Guid, invoiceNumber: string,
                             invoiceDate: DateTime, dueDate: DateTime, now: DateTime,
                             hostingId: Guid, developmentId: Guid, lateId: Guid,
                             developmentDescription: string, hostingDescription: string)
    returns (subTotal: real, grandTotal: real, status: InvoiceStatus, lateAdd: Outcome, lateSubTotal: real)
    requires Check.NotNullOrWhiteSpace(Some(invoiceNumber), InvoiceNumberField, MaxInvoiceNumberLength).Ok?
    requires DayOrdinal(invoiceDate) <= DayOrdinal(dueDate) <= DayOrdinal(now)
    requires IsValidDescription(Some(developmentDescription)) && IsValidDescription(Some(hostingDescription))
    ensures subTotal == 5500.0 && grandTotal == 5550.0 && status == Paid
    ensures lateAdd == Fail(CannotModifyPaidInvoice) && lateSubTotal == subTotal
  {
    var invoice := SeedDraftInvoice(invoiceId, customerId, invoiceNumber, invoiceDate, dueDate, now,
                                    hostingId, developmentId, developmentDescription, hostingDescription);
    var o := invoice.UpdateStatus(Paid);

    subTotal := invoice.SubTotal();
    grandTotal := invoice.GrandTotal();
    status := invoice.status;

    var late := LineItem.Create(lateId, invoice.id, Some(hostingDescription), 1.0, 100.0);
    lateAdd := invoice.AddLineItem(late.value);
    lateSubTotal := invoice.SubTotal();
  }

  /** The Draft invoice with its tax amount and both line items, before it
      is marked Paid. */
  method SeedDraftInvoice(invoiceId: Guid, customerId: Guid, invoiceNumber: string,
                          invoiceDate: DateTime, dueDate: DateTime, now: DateTime,
                          hostingId: Guid, developmentId: Guid,
                          developmentDescription: string, hostingDescription: string)
    returns (invoice: Invoice)
    requires Check.NotNullOrWhiteSpace(Some(invoiceNumber), InvoiceNumberField, MaxInvoiceNumberLength).Ok?
    requires DayOrdinal(invoiceDate) <= DayOrdinal(dueDate) <= DayOrdinal(now)
    requires IsValidDescription(Some(developmentDescription)) && IsValidDescription(Some(hostingDescription))
    ensures fresh(invoice) && invoice.status == Draft && invoice.taxAmount == 50.0
    ensures invoice.SubTotal() == 5500.0
  {
    invoice := SeedEmptyDraft(invoiceId, customerId, invoiceNumber, invoiceDate, dueDate, now);

    var first := LineItem.Create(developmentId, invoice.id, Some(developmentDescription), 40.0, 125.0);
    var development := first.value;
    assert development.Total() == 5000.0;
    var second := LineItem.Create(hostingId, invoice.id, Some(hostingDescription), 5.0, 100.0);
    var hosting := second.value;
    assert hosting.Total() == 500.0;
    AddBoth(invoice, development, hosting);
  }

  /** Both line items added to the empty Draft invoice, in that order. */
  method AddBoth(invoice: Invoice, development: LineItem, hosting: LineItem)
    requires invoice.status == Draft && invoice.lineItems == []
    requires development.Total() == 5000.0 && hosting.Total() == 500.0
    modifies invoice`lineItems
    ensures invoice.lineItems == [development, hosting] && invoice.SubTotal() == 5500.0
  {
    var o := invoice.AddLineItem(development);
    o := invoice.AddLineItem(hosting);
    SumOfTwo(development, hosting);
  }

  /** The Draft invoice with the tax amount of 50 and no line items yet. */
  method SeedEmptyDraft(invoiceId: Guid, customerId: Guid, invoiceNumber: string,
                        invoiceDate: DateTime, dueDate: DateTime, now: DateTime)
    returns (invoice: Invoice)
    requires Check.NotNullOrWhiteSpace(Some(invoiceNumber), InvoiceNumberField, MaxInvoiceNumberLength).Ok?
    requires DayOrdinal(invoiceDate) <= DayOrdinal(dueDate) <= DayOrdinal(now)
    ensures fresh(invoice) && invoice.id == invoiceId && invoice.status == Draft
    ensures invoice.taxAmount == 50.0 && invoice.lineItems == []
  {
    assert DateError(invoiceDate, Some(dueDate), now).None?;
    var created := Invoice.Create(invoiceId, Some(invoiceNumber), customerId, invoiceDate, Some(dueDate), Draft, now);
    invoice := created.value;
    invoice.taxAmount := 50.0;
  }
}
