/** The invoice application service: the checks it runs around the invoice
    aggregate, over repositories modelled as maps from id to stored row.
    A service call that throws is rolled back by its unit of work, so every
    failing call below leaves all three tables as they were. */
module InvoiceApp {
  import opened Foundation
  import opened Calendar
  import opened DomainShared
  import opened LineItems
  import opened Invoices
  import opened InvoiceNumbers
  import Check

  // ------------------------------------------------------------ stored rows

  datatype InvoiceRow = InvoiceRow(invoiceNumber: string, customerId: Guid, invoiceDate: DateTime,
                                   dueDate: Option<DateTime>, status: InvoiceStatus, taxAmount: real)
  datatype LineItemRow = LineItemRow(invoiceId: Guid, description: string, quantity: real, unitPrice: real)
  datatype CustomerRow = CustomerRow(name: string, email: string, phone: Option<string>, billingAddress: Option<string>)

  /** What the invoice entity's checks guarantee of a stored invoice. */
  predicate InvoiceRowValid(r: InvoiceRow) {
    && Check.NotNullOrWhiteSpace(Some(r.invoiceNumber), InvoiceNumberField, MaxInvoiceNumberLength).Ok?
    && (r.dueDate.Some? ==> DayOrdinal(r.dueDate.value) >= DayOrdinal(r.invoiceDate))
  }

  /** What the line-item entity's checks guarantee of a stored line item. */
  predicate LineItemRowValid(r: LineItemRow) {
    IsValidDescription(Some(r.description)) && r.quantity > 0.0 && r.unitPrice >= 0.0
  }

  function RowOf(invoice: Invoice): (r: InvoiceRow)
    reads invoice
    ensures r.invoiceNumber == invoice.invoiceNumber && r.customerId == invoice.customerId
    ensures r.invoiceDate == invoice.invoiceDate && r.dueDate == invoice.dueDate
    ensures r.status == invoice.status && r.taxAmount == invoice.taxAmount
  {
    InvoiceRow(invoice.invoiceNumber, invoice.customerId, invoice.invoiceDate,
               invoice.dueDate, invoice.status, invoice.taxAmount)
  }

  function ItemRowOf(item: LineItem): (r: LineItemRow)
    reads item
    ensures r.invoiceId == item.invoiceId && r.description == item.description
    ensures r.quantity == item.quantity && r.unitPrice == item.unitPrice
  {
    LineItemRow(item.invoiceId, item.description, item.quantity, item.unitPrice)
  }

  /** The rows the ORM inserts for an invoice's line-item collection. */
  function ItemRows(items: seq<LineItem>): (r: map<Guid, LineItemRow>)
    reads items
    ensures forall k :: k in r <==> exists i :: 0 <= i < |items| && items[i].id == k
  {
    if |items| == 0 then map[]
    else
      var last := items[|items| - 1];
      var r := ItemRows(items[..|items| - 1])[last.id := ItemRowOf(last)];
      assert forall i :: 0 <= i < |items| - 1 ==> items[..|items| - 1][i] == items[i];
      r
  }

  // ------------------------------------------------------------ service input

  datatype LineItemInput = LineItemInput(description: Option<string>, quantity: real, unitPrice: real)
  datatype CreateInvoiceInput = CreateInvoiceInput(customerId: Guid, invoiceDate: Option<DateTime>,
                                                   dueDate: Option<DateTime>, taxAmount: real,
                                                   lineItems: seq<LineItemInput>)

  function InputError(input: LineItemInput): Option<Error> {
    LineItems.FieldError(input.description, input.quantity, input.unitPrice)
  }

  /** The stored row of a line item built from valid input. */
  function InputRow(invoiceId: Guid, input: LineItemInput): (r: LineItemRow)
    ensures InputError(input).None? ==> LineItemRowValid(r)
    ensures r.invoiceId == invoiceId && r.quantity == input.quantity && r.unitPrice == input.unitPrice
    ensures input.description.Some? ==> r.description == input.description.value
  {
    LineItemRow(invoiceId, input.description.GetOr(""), input.quantity, input.unitPrice)
  }

  /** The error of the first invalid line-item input, in list order. */
  function FirstItemError(inputs: seq<LineItemInput>): (e: Option<Error>)
    ensures e.None? <==> forall i :: 0 <= i < |inputs| ==> InputError(inputs[i]).None?
    ensures e.Some? ==> exists i :: 0 <= i < |inputs| && e == InputError(inputs[i]) &&
                                    forall j :: 0 <= j < i ==> InputError(inputs[j]).None?
  {
    if |inputs| == 0 then None
    else
      var before := FirstItemError(inputs[..|inputs| - 1]);
      assert forall i :: 0 <= i < |inputs| - 1 ==> inputs[..|inputs| - 1][i] == inputs[i];
      if before.Some? then before else InputError(inputs[|inputs| - 1])
  }

  /** Once a prefix holds an error, the first error of the whole list is that one. */
  lemma {:induction false} FirstItemErrorOfPrefix(inputs: seq<LineItemInput>, k: nat)
    requires k <= |inputs|
    requires FirstItemError(inputs[..k]).Some?
    ensures FirstItemError(inputs) == FirstItemError(inputs[..k])
    decreases |inputs| - k
  {
    if k < |inputs| {
      assert inputs[..k + 1][..k] == inputs[..k];
      FirstItemErrorOfPrefix(inputs, k + 1);
    } else {
      assert inputs[..k] == inputs;
    }
  }

  /** The rows of the new line items: the i-th id carries the i-th input. */
  function NewItemRows(invoiceId: Guid, ids: seq<Guid>, inputs: seq<LineItemInput>): (r: map<Guid, LineItemRow>)
    requires |ids| == |inputs|
    ensures forall k :: k in r <==> k in ids
    ensures forall k :: k in r ==> r[k].invoiceId == invoiceId
    ensures (forall i :: 0 <= i < |inputs| ==> InputError(inputs[i]).None?) ==>
              forall k :: k in r ==> LineItemRowValid(r[k])
  {
    if |ids| == 0 then map[]
    else
      var n := |ids| - 1;
      assert forall i :: 0 <= i < n ==> inputs[..n][i] == inputs[i];
      assert forall k :: k in ids <==> k in ids[..n] || k == ids[n];
      NewItemRows(invoiceId, ids[..n], inputs[..n])[ids[n] := InputRow(invoiceId, inputs[n])]
  }

  /** With distinct ids, the i-th id is stored with the i-th input. */
  lemma {:induction false} NewItemRowsContents(invoiceId: Guid, ids: seq<Guid>, inputs: seq<LineItemInput>, i: nat)
    requires |ids| == |inputs| && i < |ids|
    requires forall a, b :: 0 <= a < b < |ids| ==> ids[a] != ids[b]
    ensures NewItemRows(invoiceId, ids, inputs)[ids[i]] == InputRow(invoiceId, inputs[i])
  {
    var n := |ids| - 1;
    if i < n {
      NewItemRowsContents(invoiceId, ids[..n], inputs[..n], i);
      assert ids[..n][i] == ids[i] != ids[n];
    }
  }

  // ------------------------------------------------- the number the generator sees

  /** The invoice numbers stored in a table. */
  function NumbersOf(rows: map<Guid, InvoiceRow>): (s: set<string>)
    ensures forall id :: id in rows ==> rows[id].invoiceNumber in s
  {
    set id | id in rows :: rows[id].invoiceNumber
  }

  /** The numbers of the rows whose ids are not in `skip`. */
  function NumbersExcept(rows: map<Guid, InvoiceRow>, skip: set<Guid>): set<string> {
    set id | id in rows && id !in skip :: rows[id].invoiceNumber
  }

  /** A non-empty set of ids has a member to pick. */
  lemma HasElement(s: set<Guid>)
    requires s != {}
    ensures exists x :: x in s
  {
    if forall x :: x !in s {
      assert false;
    }
  }

  /** The generator's query result: every stored number, in some order. */
  ghost predicate ListsNumbers(numbers: seq<string>, rows: map<Guid, InvoiceRow>) {
    forall x :: x in numbers <==> x in NumbersOf(rows)
  }

  /** The error building the new invoice throws: the constructor's date
      checks (the generated number always passes its check), then the first
      invalid line item. */
  function BuildError(input: CreateInvoiceInput, now: DateTime): (e: Option<Error>)
    ensures DateError(input.invoiceDate.GetOr(now), input.dueDate, now).Some? ==>
              e == DateError(input.invoiceDate.GetOr(now), input.dueDate, now)
    ensures DateError(input.invoiceDate.GetOr(now), input.dueDate, now).None? ==> e == FirstItemError(input.lineItems)
    ensures e.None? <==> DateError(input.invoiceDate.GetOr(now), input.dueDate, now).None? &&
                         forall i :: 0 <= i < |input.lineItems| ==> InputError(input.lineItems[i]).None?
  {
    var dateError := DateError(input.invoiceDate.GetOr(now), input.dueDate, now);
    if dateError.Some? then dateError else FirstItemError(input.lineItems)
  }

  /** The error `CreateAsync` throws: a missing customer first, then the
      errors of building the invoice. */
  function CreateError(input: CreateInvoiceInput, customers: map<Guid, CustomerRow>, now: DateTime): (e: Option<Error>)
    ensures input.customerId !in customers ==> e == Some(EntityNotFound(CustomerEntity, input.customerId))
    ensures input.customerId in customers ==> e == BuildError(input, now)
    ensures e.None? <==> input.customerId in customers && BuildError(input, now).None?
  {
    if input.customerId !in customers then Some(EntityNotFound(CustomerEntity, input.customerId))
    else BuildError(input, now)
  }

  /** Line items that carry the given ids and inputs, position by position,
      are stored as exactly the rows `NewItemRows` describes. */
  lemma {:induction false} ItemRowsMatch(items: seq<LineItem>, invoiceId: Guid, ids: seq<Guid>,
                                         inputs: seq<LineItemInput>)
    requires |items| == |ids| == |inputs|
    requires forall j :: 0 <= j < |items| ==> Carries(items[j], ids[j], invoiceId, inputs[j])
    ensures ItemRows(items) == NewItemRows(invoiceId, ids, inputs)
  {
    if |items| > 0 {
      var n := |items| - 1;
      ItemRowsMatch(items[..n], invoiceId, ids[..n], inputs[..n]);
    }
  }

  /** The line item carries the id and the input it was built from, and the
      invoice's id. */
  predicate Carries(item: LineItem, id: Guid, invoiceId: Guid, input: LineItemInput)
    reads item
  {
    item.id == id && ItemRowOf(item) == InputRow(invoiceId, input)
  }

  /** The loop of `CreateAsync`: one line item per input, in input order,
      each built with the next fresh id and the invoice's id and appended
      through `AddLineItem` (which cannot refuse on an invoice that is not
      Paid); the first invalid input stops it. */
  method AppendLineItems(invoice: Invoice, inputs: seq<LineItemInput>, lineItemIds: seq<Guid>)
    returns (e: Option<Error>)
    requires |lineItemIds| == |inputs|
    requires invoice.status != Paid && invoice.lineItems == []
    modifies invoice`lineItems
    ensures e == FirstItemError(inputs)
    ensures e.None? ==> |invoice.lineItems| == |inputs|
    ensures e.None? ==> forall i :: 0 <= i < |inputs| ==>
                          Carries(invoice.lineItems[i], lineItemIds[i], invoice.id, inputs[i])
    ensures e.None? ==> ItemRows(invoice.lineItems) == NewItemRows(invoice.id, lineItemIds, inputs)
  {
    var i := 0;
    while i < |inputs|
      invariant 0 <= i <= |inputs|
      invariant FirstItemError(inputs[..i]).None?
      invariant |invoice.lineItems| == i
      invariant forall j :: 0 <= j < i ==> Carries(invoice.lineItems[j], lineItemIds[j], invoice.id, inputs[j])
    {
      var item := LineItem.Create(lineItemIds[i], invoice.id, inputs[i].description,
                                  inputs[i].quantity, inputs[i].unitPrice);
      assert inputs[..i + 1][..i] == inputs[..i];
      if item.Err? {
        FirstItemErrorOfPrefix(inputs, i + 1);
        return Some(item.error);
      }
      var added := invoice.AddLineItem(item.value);
      i := i + 1;
    }
    assert inputs[..i] == inputs;
    ItemRowsMatch(invoice.lineItems, invoice.id, lineItemIds, inputs);
    return None;
  }

  /** The entity part of `CreateAsync`: the constructor on a Draft invoice,
      the tax copied unchecked, then the line items. */
  method BuildInvoice(invoiceId: Guid, invoiceNumber: string, input: CreateInvoiceInput, now: DateTime,
                      lineItemIds: seq<Guid>)
    returns (r: Result<Invoice>)
    requires |lineItemIds| == |input.lineItems|
    requires Check.NotNullOrWhiteSpace(Some(invoiceNumber), InvoiceNumberField, MaxInvoiceNumberLength).Ok?
    ensures r.Err? <==> BuildError(input, now).Some?
    ensures r.Err? ==> r.error == BuildError(input, now).value
    ensures r.Ok? ==> fresh(r.value) && r.value.id == invoiceId
    ensures r.Ok? ==> RowOf(r.value) == InvoiceRow(invoiceNumber, input.customerId, input.invoiceDate.GetOr(now),
                                                   input.dueDate, Draft, input.taxAmount)
    ensures r.Ok? ==> |r.value.lineItems| == |input.lineItems|
    ensures r.Ok? ==> forall i :: 0 <= i < |input.lineItems| ==>
                        Carries(r.value.lineItems[i], lineItemIds[i], invoiceId, input.lineItems[i])
    ensures r.Ok? ==> ItemRows(r.value.lineItems) == NewItemRows(invoiceId, lineItemIds, input.lineItems)
  {
    var created := Invoice.Create(invoiceId, Some(invoiceNumber), input.customerId,
                                  input.invoiceDate.GetOr(now), input.dueDate, Draft, now);
    if created.Err? { return Err(created.error); }
    var invoice := created.value;
    invoice.taxAmount := input.taxAmount;
    var e := AppendLineItems(invoice, input.lineItems, lineItemIds);
    if e.Some? { return Err(e.value); }
    return Ok(invoice);
  }

  // ------------------------------------------------------------ the list page

  /** The sort key of `OrderByDescending(i => i.InvoiceDate)`: the full instant. */
  function DateKey(rows: map<Guid, InvoiceRow>, id: Guid): int
    requires id in rows
  {
    TimeOrdinal(rows[id].invoiceDate)
  }

  /** Every id of the listing is stored and no invoice comes after an older one. */
  predicate NewestFirst(listing: seq<Guid>, rows: map<Guid, InvoiceRow>) {
    && (forall i :: 0 <= i < |listing| ==> listing[i] in rows)
    && (forall i, j :: 0 <= i < j < |listing| ==> DateKey(rows, listing[i]) >= DateKey(rows, listing[j]))
  }

  /** A listing of all stored invoices, each once, newest first; invoices
      with the same date may come in any order. */
  predicate IsNewestFirstListing(listing: seq<Guid>, rows: map<Guid, InvoiceRow>) {
    NewestFirst(listing, rows) && multiset(listing) == multiset(rows.Keys)
  }

  /** `Skip(skip).Take(take)`. */
  function Window(listing: seq<Guid>, skip: nat, take: nat): (page: seq<Guid>)
    ensures |page| == if skip >= |listing| then 0 else if take < |listing| - skip then take else |listing| - skip
    ensures forall i :: 0 <= i < |page| ==> page[i] == listing[skip + i]
  {
    if skip >= |listing| then []
    else if take < |listing| - skip then listing[skip..skip + take]
    else listing[skip..]
  }

  /** Inserts an id in front of the first invoice not newer than it. */
  function InsertByDate(listing: seq<Guid>, id: Guid, rows: map<Guid, InvoiceRow>): (r: seq<Guid>)
    requires id in rows && NewestFirst(listing, rows)
    ensures NewestFirst(r, rows)
    ensures |r| > 0 && (r[0] == id || (|listing| > 0 && r[0] == listing[0]))
  {
    if |listing| == 0 then [id]
    else if DateKey(rows, id) >= DateKey(rows, listing[0]) then
      NewestFirstCons(id, listing, rows);
      [id] + listing
    else
      NewestFirstTail(listing, rows);
      var rest := InsertByDate(listing[1..], id, rows);
      NewestFirstCons(listing[0], rest, rows);
      [listing[0]] + rest
  }

  /** Dropping the newest entry leaves a listing that is still newest first. */
  lemma NewestFirstTail(listing: seq<Guid>, rows: map<Guid, InvoiceRow>)
    requires |listing| > 0 && NewestFirst(listing, rows)
    ensures NewestFirst(listing[1..], rows)
  {
    var tail := listing[1..];
    assert forall i :: 0 <= i < |tail| ==> tail[i] == listing[i + 1];
  }

  /** An entry at least as new as the head of a newest-first listing can be
      put in front of it. */
  lemma NewestFirstCons(x: Guid, listing: seq<Guid>, rows: map<Guid, InvoiceRow>)
    requires x in rows && NewestFirst(listing, rows)
    requires |listing| > 0 ==> DateKey(rows, x) >= DateKey(rows, listing[0])
    ensures NewestFirst([x] + listing, rows)
  {
    var r := [x] + listing;
    assert forall i :: 0 < i < |r| ==> r[i] == listing[i - 1];
    forall i, j | 0 <= i < j < |r|
      ensures DateKey(rows, r[i]) >= DateKey(rows, r[j])
    {
      if i == 0 {
        assert DateKey(rows, listing[0]) >= DateKey(rows, listing[j - 1]) || j == 1;
      }
    }
  }

  /** Insertion adds the id and keeps every other entry: the result is a
      permutation of the listing with the id added. */
  lemma {:induction false} InsertByDateIsPermutation(listing: seq<Guid>, id: Guid, rows: map<Guid, InvoiceRow>)
    requires id in rows && NewestFirst(listing, rows)
    ensures multiset(InsertByDate(listing, id, rows)) == multiset(listing) + multiset{id}
  {
    if |listing| == 0 {
      assert InsertByDate(listing, id, rows) == [id];
    } else if DateKey(rows, id) >= DateKey(rows, listing[0]) {
      assert InsertByDate(listing, id, rows) == [id] + listing;
    } else {
      var tail := listing[1..];
      NewestFirstTail(listing, rows);
      InsertByDateIsPermutation(tail, id, rows);
      var rest := InsertByDate(tail, id, rows);
      assert InsertByDate(listing, id, rows) == [listing[0]] + rest;
      assert multiset([listing[0]] + rest) == multiset([listing[0]]) + multiset(rest);
      assert listing == [listing[0]] + tail;
      assert multiset(listing) == multiset([listing[0]]) + multiset(tail);
    }
  }

  // ---------------------------------------------------------- the store

  /** Every invoice names a stored customer, every line item a stored
      invoice, and every row passes its entity's checks. */
  predicate Consistent(invoices: map<Guid, InvoiceRow>, lineItems: map<Guid, LineItemRow>,
                       customers: map<Guid, CustomerRow>) {
    && (forall id :: id in invoices ==> invoices[id].customerId in customers && InvoiceRowValid(invoices[id]))
    && (forall id :: id in lineItems ==> lineItems[id].invoiceId in invoices && LineItemRowValid(lineItems[id]))
  }

  /** Storing a new valid invoice of a stored customer together with valid
      line items of that invoice keeps the store consistent. */
  lemma InsertKeepsConsistent(invoices: map<Guid, InvoiceRow>, lineItems: map<Guid, LineItemRow>,
                              customers: map<Guid, CustomerRow>, id: Guid, row: InvoiceRow,
                              newItems: map<Guid, LineItemRow>)
    requires Consistent(invoices, lineItems, customers)
    requires row.customerId in customers && InvoiceRowValid(row)
    requires forall k :: k in newItems ==> newItems[k].invoiceId == id && LineItemRowValid(newItems[k])
    ensures Consistent(invoices[id := row], lineItems + newItems, customers)
  {
  }

  class InvoiceAppService {
    var invoices: map<Guid, InvoiceRow>
    var lineItems: map<Guid, LineItemRow>
    var customers: map<Guid, CustomerRow>

    /** Referential integrity and the entity checks, over the whole store. */
    predicate Valid()
      reads this
    {
      Consistent(invoices, lineItems, customers)
    }

    /** A service over a customer table and no invoices yet. */
    constructor (customers: map<Guid, CustomerRow>)
      ensures Valid() && this.customers == customers && invoices == map[] && lineItems == map[]
    {
      this.customers := customers;
      invoices := map[];
      lineItems := map[];
    }

    /** The generator's query: the number of every stored invoice, in no
        particular order. */
    method ExistingNumbers() returns (numbers: seq<string>)
      ensures ListsNumbers(numbers, invoices)
    {
      numbers := [];
      var pending := invoices.Keys;
      while pending != {}
        invariant pending <= invoices.Keys
        invariant forall x :: x in numbers <==> x in NumbersExcept(invoices, pending)
        decreases pending
      {
        HasElement(pending);
        var id :| id in pending;
        assert NumbersExcept(invoices, pending - {id}) ==
               NumbersExcept(invoices, pending) + {invoices[id].invoiceNumber};
        numbers := numbers + [invoices[id].invoiceNumber];
        pending := pending - {id};
      }
      assert NumbersExcept(invoices, {}) == NumbersOf(invoices);
    }

    /** `InsertAsync` of an invoice together with its line-item collection. */
    method Insert(id: Guid, row: InvoiceRow, newItems: map<Guid, LineItemRow>)
      requires Valid()
      requires row.customerId in customers && InvoiceRowValid(row)
      requires forall k :: k in newItems ==> newItems[k].invoiceId == id && LineItemRowValid(newItems[k])
      modifies this`invoices, this`lineItems
      ensures Valid()
      ensures invoices == old(invoices)[id := row] && lineItems == old(lineItems) + newItems
    {
      InsertKeepsConsistent(invoices, lineItems, customers, id, row, newItems);
      invoices := invoices[id := row];
      lineItems := lineItems + newItems;
    }

    /** `InvoiceNumberGenerator.GenerateAsync` against the invoice table;
        `queried` is what its query returned. */
    method GenerateNumber(now: DateTime) returns (invoiceNumber: string, ghost queried: seq<string>)
      ensures ListsNumbers(queried, invoices) && invoiceNumber == Generate(queried, now)
      ensures Check.NotNullOrWhiteSpace(Some(invoiceNumber), InvoiceNumberField, MaxInvoiceNumberLength).Ok?
    {
      var numbers := ExistingNumbers();
      queried := numbers;
      invoiceNumber := Generate(numbers, now);
      GeneratedNumberFits(numbers, now);
    }

    /** `CreateAsync`. The ids the GUID generator hands out are parameters and
        are new to their tables; `queried` is what the number generator's
        query returned (by `InvoiceNumbers.OnlyTheMonthMatters` its order does
        not matter). */
    method Create(input: CreateInvoiceInput, now: DateTime, invoiceId: Guid, lineItemIds: seq<Guid>)
      returns (r: Result<Guid>, ghost queried: seq<string>)
      requires Valid()
      requires invoiceId !in invoices
      requires |lineItemIds| == |input.lineItems|
      requires forall i :: 0 <= i < |lineItemIds| ==> lineItemIds[i] !in lineItems
      requires forall i, j :: 0 <= i < j < |lineItemIds| ==> lineItemIds[i] != lineItemIds[j]
      modifies this`invoices, this`lineItems
      ensures Valid()
      ensures r.Err? <==> CreateError(input, old(customers), now).Some?
      ensures r.Err? ==> r.error == CreateError(input, old(customers), now).value
      ensures r.Err? ==> invoices == old(invoices) && lineItems == old(lineItems)
      ensures r.Ok? ==> r.value == invoiceId
      ensures r.Ok? ==> ListsNumbers(queried, old(invoices))
      ensures r.Ok? ==> invoices == old(invoices)[invoiceId := InvoiceRow(
                          Generate(queried, now), input.customerId, input.invoiceDate.GetOr(now),
                          input.dueDate, Draft, input.taxAmount)]
      ensures r.Ok? ==> lineItems == old(lineItems) + NewItemRows(invoiceId, lineItemIds, input.lineItems)
    {
      if input.customerId !in customers {
        queried := [];
        r := Err(EntityNotFound(CustomerEntity, input.customerId));
        return;
      }
      var invoiceNumber;
      invoiceNumber, queried := GenerateNumber(now);
      var built := BuildInvoice(invoiceId, invoiceNumber, input, now, lineItemIds);
      if built.Err? {
        r := Err(built.error);
        return;
      }
      assert BuildError(input, now).None?;
      var row := RowOf(built.value);
      assert row == InvoiceRow(invoiceNumber, input.customerId, input.invoiceDate.GetOr(now),
                               input.dueDate, Draft, input.taxAmount);
      assert InvoiceRowValid(row);
      var newItems := ItemRows(built.value.lineItems);
      assert FirstItemError(input.lineItems).None?;
      assert newItems == NewItemRows(invoiceId, lineItemIds, input.lineItems);
      Insert(invoiceId, row, newItems);
      r := Ok(invoiceId);
    }

    /** `UpdateAsync`: a Paid or Cancelled invoice is refused before
        `Invoice.Update` runs; otherwise its outcome decides. */
    method Update(id: Guid, invoiceDate: DateTime, dueDate: Option<DateTime>, taxAmount: real, now: DateTime)
      returns (o: Outcome)
      requires Valid()
      modifies this`invoices
      ensures Valid()
      ensures id !in old(invoices) ==> o == Fail(EntityNotFound(InvoiceEntity, id))
      ensures id in old(invoices) && !IsEditable(old(invoices)[id].status) ==> o == Fail(CannotEditInvoice)
      ensures id in old(invoices) && IsEditable(old(invoices)[id].status) ==>
                o == if DateError(invoiceDate, dueDate, now).None? then Pass
                     else Fail(DateError(invoiceDate, dueDate, now).value)
      ensures o.Pass? ==> invoices == old(invoices)[id := old(invoices)[id].(
                            invoiceDate := invoiceDate, dueDate := dueDate, taxAmount := taxAmount)]
      ensures o.Fail? ==> invoices == old(invoices)
    {
      if id !in invoices { return Fail(EntityNotFound(InvoiceEntity, id)); }
      var invoice := Materialize(id);
      if !invoice.CanEdit() { return Fail(CannotEditInvoice); }
      o := invoice.Update(invoiceDate, dueDate, taxAmount, now);
      if o.Fail? { return; }
      invoices := invoices[id := RowOf(invoice)];
    }

    /** `UpdateStatusAsync`: only the status changes, by `Invoice.UpdateStatus`. */
    method UpdateStatus(id: Guid, status: InvoiceStatus) returns (o: Outcome)
      requires Valid()
      modifies this`invoices
      ensures Valid()
      ensures id !in old(invoices) ==> o == Fail(EntityNotFound(InvoiceEntity, id))
      ensures id in old(invoices) ==>
                o == if StatusChangeAllowed(old(invoices)[id].status, status) then Pass
                     else Fail(CannotChangeStatusOfCancelledInvoice)
      ensures o.Pass? ==> invoices == old(invoices)[id := old(invoices)[id].(status := status)]
      ensures o.Fail? ==> invoices == old(invoices)
    {
      if id !in invoices { return Fail(EntityNotFound(InvoiceEntity, id)); }
      var invoice := Materialize(id);
      o := invoice.UpdateStatus(status);
      if o.Fail? { return; }
      invoices := invoices[id := RowOf(invoice)];
    }

    /** `AddLineItemAsync`: the line item is built (and validated) before
        `Invoice.AddLineItem` checks for Paid; a Cancelled invoice accepts it. */
    method AddLineItem(invoiceId: Guid, input: LineItemInput, lineItemId: Guid) returns (o: Outcome)
      requires Valid()
      requires lineItemId !in lineItems
      modifies this`lineItems
      ensures Valid()
      ensures invoiceId !in old(invoices) ==> o == Fail(EntityNotFound(InvoiceEntity, invoiceId))
      ensures invoiceId in old(invoices) && InputError(input).Some? ==> o == Fail(InputError(input).value)
      ensures invoiceId in old(invoices) && InputError(input).None? ==>
                o == if old(invoices)[invoiceId].status == Paid then Fail(CannotModifyPaidInvoice) else Pass
      ensures o.Pass? ==> lineItems == old(lineItems)[lineItemId := InputRow(invoiceId, input)]
      ensures o.Fail? ==> lineItems == old(lineItems)
    {
      if invoiceId !in invoices { return Fail(EntityNotFound(InvoiceEntity, invoiceId)); }
      var invoice := Materialize(invoiceId);
      var item := LineItem.Create(lineItemId, invoiceId, input.description, input.quantity, input.unitPrice);
      if item.Err? { return Fail(item.error); }
      o := invoice.AddLineItem(item.value);
      if o.Fail? { return; }
      lineItems := lineItems[lineItemId := ItemRowOf(item.value)];
    }

    /** `UpdateLineItemAsync`: the invoice must be editable, the line item
        must exist and must belong to that invoice, then `LineItem.Update`
        decides. */
    method UpdateLineItem(invoiceId: Guid, lineItemId: Guid, input: LineItemInput) returns (o: Outcome)
      requires Valid()
      modifies this`lineItems
      ensures Valid()
      ensures invoiceId !in old(invoices) ==> o == Fail(EntityNotFound(InvoiceEntity, invoiceId))
      ensures invoiceId in old(invoices) && !IsEditable(old(invoices)[invoiceId].status) ==>
                o == Fail(CannotEditInvoice)
      ensures invoiceId in old(invoices) && IsEditable(old(invoices)[invoiceId].status) ==>
                o == if lineItemId !in old(lineItems) then Fail(EntityNotFound(LineItemEntity, lineItemId))
                     else if old(lineItems)[lineItemId].invoiceId != invoiceId then Fail(LineItemDoesNotBelongToInvoice)
                     else if InputError(input).Some? then Fail(InputError(input).value)
                     else Pass
      ensures o.Pass? ==> lineItems == old(lineItems)[lineItemId := InputRow(invoiceId, input)]
      ensures o.Fail? ==> lineItems == old(lineItems)
    {
      if invoiceId !in invoices { return Fail(EntityNotFound(InvoiceEntity, invoiceId)); }
      var invoice := Materialize(invoiceId);
      if !invoice.CanEdit() { return Fail(CannotEditInvoice); }
      if lineItemId !in lineItems { return Fail(EntityNotFound(LineItemEntity, lineItemId)); }
      var row := lineItems[lineItemId];
      var item := new LineItem.Load(lineItemId, row.invoiceId, row.description, row.quantity, row.unitPrice);
      if item.invoiceId != invoiceId { return Fail(LineItemDoesNotBelongToInvoice); }
      o := item.Update(input.description, input.quantity, input.unitPrice);
      if o.Fail? { return; }
      lineItems := lineItems[lineItemId := ItemRowOf(item)];
    }

    /** `RemoveLineItemAsync`: refused on a Paid invoice; otherwise the line
        item with that id is deleted whichever invoice it belongs to, and a
        missing id deletes nothing. */
    method RemoveLineItem(invoiceId: Guid, lineItemId: Guid) returns (o: Outcome)
      requires Valid()
      modifies this`lineItems
      ensures Valid()
      ensures invoiceId !in old(invoices) ==> o == Fail(EntityNotFound(InvoiceEntity, invoiceId))
      ensures invoiceId in old(invoices) ==>
                o == if old(invoices)[invoiceId].status == Paid then Fail(CannotModifyPaidInvoice) else Pass
      ensures o.Pass? ==> lineItems == old(lineItems) - {lineItemId}
      ensures o.Fail? ==> lineItems == old(lineItems)
    {
      if invoiceId !in invoices { return Fail(EntityNotFound(InvoiceEntity, invoiceId)); }
      var invoice := Materialize(invoiceId);
      o := invoice.RemoveLineItem(lineItemId);
      if o.Fail? { return; }
      lineItems := lineItems - {lineItemId};
    }

    /** `GetListAsync`: the number of stored invoices and one page of the
        invoices ordered newest first. */
    method GetList(skip: nat, take: nat) returns (totalCount: nat, page: seq<Guid>)
      ensures totalCount == |invoices|
      ensures exists listing :: IsNewestFirstListing(listing, invoices) && page == Window(listing, skip, take)
      ensures |page| == if skip >= |invoices| then 0 else if take < |invoices| - skip then take else |invoices| - skip
    {
      var listing: seq<Guid> := [];
      var pending := invoices.Keys;
      while pending != {}
        invariant pending <= invoices.Keys
        invariant NewestFirst(listing, invoices)
        invariant multiset(listing) == multiset(invoices.Keys - pending)
        decreases pending
      {
        HasElement(pending);
        var id :| id in pending;
        InsertByDateIsPermutation(listing, id, invoices);
        listing := InsertByDate(listing, id, invoices);
        assert invoices.Keys - (pending - {id}) == (invoices.Keys - pending) + {id};
        pending := pending - {id};
      }
      assert invoices.Keys - pending == invoices.Keys;
      assert |listing| == |multiset(listing)| == |invoices.Keys|;
      totalCount := |invoices|;
      page := Window(listing, skip, take);
    }

    /** The invoice entity of a stored row, loaded without its line items. */
    method Materialize(id: Guid) returns (invoice: Invoice)
      requires id in invoices
      ensures fresh(invoice) && invoice.id == id && RowOf(invoice) == invoices[id] && invoice.lineItems == []
    {
      var row := invoices[id];
      invoice := new Invoice.Load(id, row.invoiceNumber, row.customerId, row.invoiceDate,
                                  row.dueDate, row.status, row.taxAmount);
    }
  }
}
