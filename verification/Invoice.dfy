/** The invoice aggregate: dates, status, tax and the ordered list of line
    items, with guarded mutators and totals derived on every read. */
module Invoices {
  import opened Foundation
  import opened Calendar
  import opened DomainShared
  import opened LineItems
  import Check

  // ---------------------------------------------------------------- totals

  /** The sum of the line totals, in list order; 0 for no items. */
  function SumOfTotals(items: seq<LineItem>): real
    reads items
  {
    if |items| == 0 then 0.0 else SumOfTotals(items[..|items| - 1]) + items[|items| - 1].Total()
  }

  /** The sum over a concatenation is the sum of the sums. */
  lemma {:induction false} SumOfTotalsConcat(a: seq<LineItem>, b: seq<LineItem>)
    ensures SumOfTotals(a + b) == SumOfTotals(a) + SumOfTotals(b)
  {
    if |b| > 0 {
      assert (a + b)[..|a + b| - 1] == a + b[..|b| - 1];
      SumOfTotalsConcat(a, b[..|b| - 1]);
    } else {
      assert a + b == a;
    }
  }

  /** A list of valid line items never totals below zero. */
  lemma {:induction false} SumOfValidTotalsIsNonNegative(items: seq<LineItem>)
    ensures (forall i :: 0 <= i < |items| ==> items[i].Valid()) ==> SumOfTotals(items) >= 0.0
  {
    if |items| > 0 {
      var n := |items| - 1;
      assert forall i :: 0 <= i < n ==> items[..n][i] == items[i];
      SumOfValidTotalsIsNonNegative(items[..n]);
    }
  }

  // ---------------------------------------------------- finding an item by id

  /** `FirstOrDefault(li => li.Id == id)`, as a position. */
  function FirstIndexOf(items: seq<LineItem>, id: Guid): (r: Option<nat>)
    ensures r.None? <==> forall j :: 0 <= j < |items| ==> items[j].id != id
    ensures r.Some? ==> r.value < |items| && items[r.value].id == id
    ensures r.Some? ==> forall j :: 0 <= j < r.value ==> items[j].id != id
  {
    if |items| == 0 then None
    else if items[0].id == id then Some(0)
    else
      var rest := FirstIndexOf(items[1..], id);
      if rest.None? then None else Some(rest.value + 1)
  }

  /** Appending an item raises the sum by that item's total. */
  lemma SumAfterAppend(items: seq<LineItem>, item: LineItem)
    ensures SumOfTotals(items + [item]) == SumOfTotals(items) + item.Total()
  {
    assert (items + [item])[..|items|] == items;
  }

  /** The list without the first item that has the id; unchanged when no
      item has it. */
  function RemoveFirst(items: seq<LineItem>, id: Guid): (r: seq<LineItem>)
    ensures FirstIndexOf(items, id).None? ==> r == items
    ensures FirstIndexOf(items, id).Some? ==>
      var k := FirstIndexOf(items, id).value;
      |r| == |items| - 1 && r == items[..k] + items[k + 1..]
  {
    match FirstIndexOf(items, id)
    case None => items
    case Some(k) => items[..k] + items[k + 1..]
  }

  /** Removing the first item with an id lowers the sum by that item's total
      and keeps every other item, in order. */
  lemma SumAfterRemoveFirst(items: seq<LineItem>, id: Guid)
    ensures FirstIndexOf(items, id).None? ==> SumOfTotals(RemoveFirst(items, id)) == SumOfTotals(items)
    ensures FirstIndexOf(items, id).Some? ==>
      SumOfTotals(RemoveFirst(items, id)) == SumOfTotals(items) - items[FirstIndexOf(items, id).value].Total()
  {
    if FirstIndexOf(items, id).Some? {
      var k := FirstIndexOf(items, id).value;
      assert items == items[..k] + [items[k]] + items[k + 1..];
      SumOfTotalsConcat(items[..k] + [items[k]], items[k + 1..]);
      SumOfTotalsConcat(items[..k], [items[k]]);
      SumOfTotalsConcat(items[..k], items[k + 1..]);
      assert [items[k]][..0] == [];
    }
  }

  // ------------------------------------------------------------ status rules

  /** A status change is refused only when it would leave Cancelled. */
  predicate StatusChangeAllowed(current: InvoiceStatus, requested: InvoiceStatus) {
    !(current == Cancelled && requested != Cancelled)
  }

  /** The status after a sequence of `UpdateStatus` calls, each failing call
      leaving the status as it was. */
  function StatusAfter(current: InvoiceStatus, requests: seq<InvoiceStatus>): InvoiceStatus
    decreases |requests|
  {
    if |requests| == 0 then current
    else
      var next := if StatusChangeAllowed(current, requests[0]) then requests[0] else current;
      StatusAfter(next, requests[1..])
  }

  /** Once Cancelled, no sequence of status changes leads anywhere else. */
  lemma {:induction false} CancelledIsTerminal(requests: seq<InvoiceStatus>)
    ensures StatusAfter(Cancelled, requests) == Cancelled
  {
    if |requests| > 0 {
      CancelledIsTerminal(requests[1..]);
    }
  }

  /** Any other status reaches any status, Paid and back included, in one call. */
  lemma {:induction false} OnlyCancelledIsTerminal(current: InvoiceStatus, requested: InvoiceStatus)
    requires current != Cancelled
    ensures StatusAfter(current, [requested]) == requested
  {
    assert [requested][1..] == [];
  }

  /** Editing is open in Draft, Pending and Sent, closed in Paid and Cancelled. */
  predicate IsEditable(status: InvoiceStatus) {
    status != Paid && status != Cancelled
  }

  // ----------------------------------------------------------- construction

  /** The error the invoice-date and due-date setters raise when run in that
      order, the due date compared with the new invoice date; None when both
      pass. */
  function DateError(invoiceDate: DateTime, dueDate: Option<DateTime>, now: DateTime): (e: Option<Error>)
    ensures e.None? <==>
      DayOrdinal(invoiceDate) <= DayOrdinal(now) &&
      (dueDate.None? || DayOrdinal(dueDate.value) >= DayOrdinal(invoiceDate))
    ensures DayOrdinal(invoiceDate) > DayOrdinal(now) ==> e == Some(DateCannotBeInFuture)
    ensures (DayOrdinal(invoiceDate) <= DayOrdinal(now) && dueDate.Some? &&
             DayOrdinal(dueDate.value) < DayOrdinal(invoiceDate)) ==> e == Some(DueDateMustBeAfterInvoiceDate)
  {
    if DayOrdinal(invoiceDate) > DayOrdinal(now) then Some(DateCannotBeInFuture)
    else if dueDate.Some? && DayOrdinal(dueDate.value) < DayOrdinal(invoiceDate) then
      Some(DueDateMustBeAfterInvoiceDate)
    else None
  }

  /** The error the constructor raises: the invoice number is checked first,
      then the two dates; None when all pass. */
  function ConstructionError(invoiceNumber: Option<string>, invoiceDate: DateTime,
                             dueDate: Option<DateTime>, now: DateTime): (e: Option<Error>)
    ensures e.None? <==>
      Check.NotNullOrWhiteSpace(invoiceNumber, InvoiceNumberField, MaxInvoiceNumberLength).Ok? &&
      DateError(invoiceDate, dueDate, now).None?
    ensures Check.NotNullOrWhiteSpace(invoiceNumber, InvoiceNumberField, MaxInvoiceNumberLength).Err? ==>
      e == Some(ArgumentInvalid(InvoiceNumberField))
    ensures Check.NotNullOrWhiteSpace(invoiceNumber, InvoiceNumberField, MaxInvoiceNumberLength).Ok? ==>
      e == DateError(invoiceDate, dueDate, now)
  {
    if Check.NotNullOrWhiteSpace(invoiceNumber, InvoiceNumberField, MaxInvoiceNumberLength).Err? then
      Some(ArgumentInvalid(InvoiceNumberField))
    else DateError(invoiceDate, dueDate, now)
  }

  class Invoice {
    const id: Guid
    var invoiceNumber: string
    var customerId: Guid
    var invoiceDate: DateTime
    var dueDate: Option<DateTime>
    var status: InvoiceStatus
    var taxAmount: real
    var lineItems: seq<LineItem>

    /** The due date, when there is one, is not on a day before the invoice date. */
    predicate DatesConsistent()
      reads this`invoiceDate, this`dueDate
    {
      dueDate.Some? ==> DayOrdinal(dueDate.value) >= DayOrdinal(invoiceDate)
    }

    /** The sum of the current line totals. */
    function SubTotal(): (r: real)
      reads this`lineItems, lineItems
      ensures lineItems == [] ==> r == 0.0
      ensures (forall i :: 0 <= i < |lineItems| ==> lineItems[i].Valid()) ==> r >= 0.0
    {
      SumOfValidTotalsIsNonNegative(lineItems);
      SumOfTotals(lineItems)
    }

    /** The subtotal plus the tax amount. */
    function GrandTotal(): (r: real)
      reads this`lineItems, this`taxAmount, lineItems
    {
      SubTotal() + taxAmount
    }

    /** True exactly for Draft, Pending and Sent. */
    predicate CanEdit()
      reads this`status
      ensures CanEdit() <==> status == Draft || status == Pending || status == Sent
    {
      IsEditable(status)
    }

    /** The parameterless constructor the ORM uses: identity, default values
        and an empty line-item list. */
    constructor Blank(id: Guid)
      ensures this.id == id && invoiceNumber == "" && customerId == 0
      ensures invoiceDate == CalendarTime(1, 1, 1, 0) && dueDate == None
      ensures status == Draft && taxAmount == 0.0 && lineItems == []
    {
      this.id := id;
      invoiceNumber := "";
      customerId := 0;
      invoiceDate := CalendarTime(1, 1, 1, 0);
      dueDate := None;
      status := Draft;
      taxAmount := 0.0;
      lineItems := [];
    }

    /** The ORM loading a stored invoice: every column copied, no check run. */
    constructor Load(id: Guid, invoiceNumber: string, customerId: Guid, invoiceDate: DateTime,
                     dueDate: Option<DateTime>, status: InvoiceStatus, taxAmount: real)
      ensures this.id == id && this.invoiceNumber == invoiceNumber && this.customerId == customerId
      ensures this.invoiceDate == invoiceDate && this.dueDate == dueDate
      ensures this.status == status && this.taxAmount == taxAmount && lineItems == []
    {
      this.id := id;
      this.invoiceNumber := invoiceNumber;
      this.customerId := customerId;
      this.invoiceDate := invoiceDate;
      this.dueDate := dueDate;
      this.status := status;
      this.taxAmount := taxAmount;
      lineItems := [];
    }

    /** `new Invoice(id, number, customerId, invoiceDate, dueDate, status)`:
        sets the number, the customer, the invoice date and then the due
        date through their setters, then the status; tax 0, no line items. */
    static method Create(id: Guid, invoiceNumber: Option<string>, customerId: Guid, invoiceDate: DateTime,
                         dueDate: Option<DateTime>, status: InvoiceStatus, now: DateTime)
      returns (r: Result<Invoice>)
      ensures r.Err? <==> ConstructionError(invoiceNumber, invoiceDate, dueDate, now).Some?
      ensures r.Err? ==> r.error == ConstructionError(invoiceNumber, invoiceDate, dueDate, now).value
      ensures r.Ok? ==> fresh(r.value) && r.value.DatesConsistent()
      ensures r.Ok? ==> r.value.id == id && r.value.invoiceNumber == invoiceNumber.value
      ensures r.Ok? ==> r.value.customerId == customerId && r.value.status == status
      ensures r.Ok? ==> r.value.invoiceDate == invoiceDate && r.value.dueDate == dueDate
      ensures r.Ok? ==> r.value.taxAmount == 0.0 && r.value.lineItems == []
    {
      var invoice := new Invoice.Blank(id);
      var o := invoice.SetInvoiceNumber(invoiceNumber);
      if o.Fail? { return Err(o.error); }
      invoice.customerId := customerId;
      o := invoice.SetInvoiceDate(invoiceDate, now);
      if o.Fail? { return Err(o.error); }
      o := invoice.SetDueDate(dueDate);
      if o.Fail? { return Err(o.error); }
      invoice.status := status;
      invoice.taxAmount := 0.0;
      invoice.lineItems := [];
      return Ok(invoice);
    }

    /** Stores the number when it is not blank and at most 50 UTF-16 code units. */
    method SetInvoiceNumber(invoiceNumber: Option<string>) returns (o: Outcome)
      modifies this`invoiceNumber
      ensures o.Pass? <==> Check.NotNullOrWhiteSpace(invoiceNumber, InvoiceNumberField, MaxInvoiceNumberLength).Ok?
      ensures o.Pass? ==> this.invoiceNumber == invoiceNumber.value
      ensures o.Fail? ==> o.error == ArgumentInvalid(InvoiceNumberField) && this.invoiceNumber == old(this.invoiceNumber)
    {
      var checked := Check.NotNullOrWhiteSpace(invoiceNumber, InvoiceNumberField, MaxInvoiceNumberLength);
      if checked.Err? { return Fail(checked.error); }
      this.invoiceNumber := checked.value;
      return Pass;
    }

    /** Refuses a date whose day is after today's; today itself, at any time
        of day, is accepted. */
    method SetInvoiceDate(invoiceDate: DateTime, now: DateTime) returns (o: Outcome)
      modifies this`invoiceDate
      ensures o.Pass? <==> DayOrdinal(invoiceDate) <= DayOrdinal(now)
      ensures o.Pass? ==> this.invoiceDate == invoiceDate
      ensures o.Fail? ==> o.error == DateCannotBeInFuture && this.invoiceDate == old(this.invoiceDate)
    {
      if DayOrdinal(invoiceDate) > DayOrdinal(now) { return Fail(DateCannotBeInFuture); }
      this.invoiceDate := invoiceDate;
      return Pass;
    }

    /** Accepts no due date, or one whose day is not before the current
        invoice date's day. */
    method SetDueDate(dueDate: Option<DateTime>) returns (o: Outcome)
      modifies this`dueDate
      ensures o.Pass? <==> dueDate.None? || DayOrdinal(dueDate.value) >= DayOrdinal(invoiceDate)
      ensures o.Pass? ==> this.dueDate == dueDate && DatesConsistent()
      ensures o.Fail? ==> o.error == DueDateMustBeAfterInvoiceDate && this.dueDate == old(this.dueDate)
    {
      if dueDate.Some? && DayOrdinal(dueDate.value) < DayOrdinal(invoiceDate) {
        return Fail(DueDateMustBeAfterInvoiceDate);
      }
      this.dueDate := dueDate;
      return Pass;
    }

    /** Refuses to leave Cancelled; any other change, Cancelled to Cancelled
        and away from Paid included, is applied. */
    method UpdateStatus(newStatus: InvoiceStatus) returns (o: Outcome)
      modifies this`status
      ensures o.Pass? <==> StatusChangeAllowed(old(status), newStatus)
      ensures o.Fail? ==> o.error == CannotChangeStatusOfCancelledInvoice
      ensures status == StatusAfter(old(status), [newStatus])
      ensures status == if o.Pass? then newStatus else old(status)
    {
      if status == Cancelled && newStatus != Cancelled {
        return Fail(CannotChangeStatusOfCancelledInvoice);
      }
      status := newStatus;
      return Pass;
    }

    /** Appends the item unless the invoice is Paid; Cancelled does not block
        it, and neither the item's invoice id nor a duplicate id is checked. */
    method AddLineItem(lineItem: LineItem) returns (o: Outcome)
      modifies this`lineItems
      ensures o.Pass? <==> status != Paid
      ensures o.Fail? ==> o.error == CannotModifyPaidInvoice
      ensures lineItems == if o.Pass? then old(lineItems) + [lineItem] else old(lineItems)
    {
      if status == Paid { return Fail(CannotModifyPaidInvoice); }
      lineItems := lineItems + [lineItem];
      return Pass;
    }

    /** Unless the invoice is Paid, drops the first item with the id and keeps
        the others in order; an absent id is no error. */
    method RemoveLineItem(lineItemId: Guid) returns (o: Outcome)
      modifies this`lineItems
      ensures o.Pass? <==> status != Paid
      ensures o.Fail? ==> o.error == CannotModifyPaidInvoice
      ensures lineItems == if o.Pass? then RemoveFirst(old(lineItems), lineItemId) else old(lineItems)
    {
      if status == Paid { return Fail(CannotModifyPaidInvoice); }
      var found := FirstIndexOf(lineItems, lineItemId);
      if found.Some? {
        lineItems := lineItems[..found.value] + lineItems[found.value + 1..];
      }
      return Pass;
    }

    /** Unless the invoice is Paid, sets the invoice date, then the due date,
        then the tax (no sign check). Not atomic: a refused due date leaves the
        new invoice date in place and the tax unchanged. */
    method Update(invoiceDate: DateTime, dueDate: Option<DateTime>, taxAmount: real, now: DateTime)
      returns (o: Outcome)
      modifies this`invoiceDate, this`dueDate, this`taxAmount
      ensures old(status) == Paid ==> o == Fail(CannotModifyPaidInvoice)
      ensures o.Pass? <==> status != Paid && DateError(invoiceDate, dueDate, now).None?
      ensures o.Fail? && old(status) != Paid ==> o.error == DateError(invoiceDate, dueDate, now).value
      ensures this.invoiceDate == if old(status) != Paid && DayOrdinal(invoiceDate) <= DayOrdinal(now)
                                  then invoiceDate else old(this.invoiceDate)
      ensures this.dueDate == if o.Pass? then dueDate else old(this.dueDate)
      ensures this.taxAmount == if o.Pass? then taxAmount else old(this.taxAmount)
      ensures o.Pass? ==> DatesConsistent() && GrandTotal() == SubTotal() + taxAmount
    {
      if status == Paid { return Fail(CannotModifyPaidInvoice); }
      o := SetInvoiceDate(invoiceDate, now);
      if o.Fail? { return; }
      o := SetDueDate(dueDate);
      if o.Fail? { return; }
      this.taxAmount := taxAmount;
    }
  }
}
