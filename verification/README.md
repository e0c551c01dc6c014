# Customer invoicing domain, modelled in Dafny

This project models the domain core of the CustomerInvoice application, an
ABP / ASP.NET Core invoicing system. The model covers:

- **The `Invoice` aggregate.** Its number, customer, invoice date, optional
  due date, status (Draft, Pending, Sent, Paid, Cancelled) and tax amount.
  Also its ordered list of line items and the derived `SubTotal`,
  `GrandTotal` and `CanEdit`.
- **The `LineItem` entity.** Description, quantity and unit price, each
  checked by its own setter, plus the derived `Total`.
- **The `Customer` entity.** Name and email are checked. Phone and billing
  address are stored as given.
- **The invoice number generator.** It produces `INV-<yyyyMM>-<sequence>`
  from the numbers already stored and the clock.
- **The invoice application service.** It covers the checks `CreateAsync`,
  `UpdateAsync`, `UpdateStatusAsync`, `AddLineItemAsync`,
  `UpdateLineItemAsync`, `RemoveLineItemAsync` and `GetListAsync` run around
  the aggregate. The invoice, line-item and customer repositories are maps
  from id to stored row.
- **The first sample invoice the data seeder creates.** It is replayed step
  by step on the aggregate.

Entities whose fields the source assigns in place are Dafny classes. Each
setter is a method that returns `Pass` or `Fail(error)` in place of throwing.
Each C# constructor that throws becomes a static `Create` that returns
`Ok(entity)` or `Err(error)`. It runs the setters in the source's order on a
blank object, which is the ORM's parameterless constructor.

The source's pure code is modelled as functions:

- the totals;
- the `.Date` comparisons;
- the number generator;
- the `Check.NotNullOrWhiteSpace` guard.

Dates are a calendar date plus a tick of the day. `.Date` comparisons compare
`DayOrdinal`, and sorting by date compares the whole instant, `TimeOrdinal`.
Money and quantities (`decimal`) are exact `real`s. A C# `null` string is
`None`. The clock (`DateTime.Now`) and the ids the GUID generator hands out
are parameters.

Files and modules:

| file | module | models |
|---|---|---|
| Foundation.dfy | Foundation | ids, `Option`, the business errors, `Result`, `Outcome` |
| DomainShared.dfy | DomainShared | `InvoiceStatus` and the length constants |
| Check.dfy | Check | ABP's `Check.NotNullOrWhiteSpace` |
| Calendar.dfy | Calendar | `DateTime`, `.Date` and instant order |
| Numerals.dfy | Numerals | `ToString("D4")` and `int.TryParse` |
| LineItem.dfy | LineItems | `LineItem` |
| Invoice.dfy | Invoices | `Invoice` |
| Customer.dfy | Customers | `Customer` |
| InvoiceNumberGenerator.dfy | InvoiceNumbers | `InvoiceNumberGenerator.GenerateAsync` |
| InvoiceAppService.dfy | InvoiceApp | `InvoiceAppService` |
| SampleData.dfy | SampleData | the seeder's first invoice |

## Model

| member | source | states |
|---|---|---|
| Check.NotNullOrWhiteSpace | aspnet-core/src/CustomerInvoice.Domain/Entities/Invoice.cs:104-108 | succeeds exactly when the value is present, at most maxLength UTF-16 code units long (`string.Length`) and has a character that is not white space; then returns the value unchanged; otherwise the argument error names the field |
| Check.Utf16Length | aspnet-core/src/CustomerInvoice.Domain/Entities/LineItem.cs:77-81 | the length the guard compares lies between the number of characters and twice that |
| Check.BasicPlaneLength | aspnet-core/src/CustomerInvoice.Domain/Entities/LineItem.cs:77-81 | for text without supplementary characters the length is the character count |
| Check.SupplementaryLength | aspnet-core/src/CustomerInvoice.Domain/Entities/LineItem.cs:77-81 | each supplementary character (a surrogate pair) counts two code units |
| Check.SupplementaryCharactersCountTwice | aspnet-core/src/CustomerInvoice.Domain/Entities/LineItem.cs:77-81 | n emoji exceed any limit below 2n, so 300 of them are refused as a 500-unit description |
| Check.ShortVisibleTextPasses | aspnet-core/src/CustomerInvoice.Domain/Entities/LineItem.cs:77-81 | text starting with a visible character and at most half the limit long is accepted unchanged |
| Check.BlankIsRejected | aspnet-core/src/CustomerInvoice.Domain/Entities/LineItem.cs:77-81 | null, the empty string and any run of spaces are refused; one visible character is accepted verbatim |
| Calendar.DayOrdinalIsCalendarOrder | aspnet-core/src/CustomerInvoice.Domain/Entities/Invoice.cs:117 | the day number orders `.Date` values as the calendar does (year, then month, then day) and is equal exactly for the same calendar day |
| Calendar.TimeOrdinalIsInstantOrder | aspnet-core/src/CustomerInvoice.Application/Invoices/InvoiceAppService.cs:117 | the sort key identifies the instant and puts a later day after an earlier one |
| Numerals.Digits | aspnet-core/src/CustomerInvoice.Domain/Services/InvoiceNumberGenerator.cs:57 | the decimal digits of n, with no leading zero, denote n |
| Numerals.TryParseInt32 | aspnet-core/src/CustomerInvoice.Domain/Services/InvoiceNumberGenerator.cs:50 | parses exactly the non-empty digit strings whose value fits in Int32, giving that value |
| Numerals.FormatDWidth | aspnet-core/src/CustomerInvoice.Domain/Services/InvoiceNumberGenerator.cs:57 | `D4`-style formatting of a number below 10^w gives exactly w digits |
| Numerals.FormatDRoundTrip | aspnet-core/src/CustomerInvoice.Domain/Services/InvoiceNumberGenerator.cs:50-57 | parsing a zero-padded non-negative Int32 gives the number back, whatever the padding |
| Numerals.LeadingZerosValue | aspnet-core/src/CustomerInvoice.Domain/Services/InvoiceNumberGenerator.cs:50 | leading zeros do not change the parsed value |
| InvoiceNumbers.OrdinalLeTotal | aspnet-core/src/CustomerInvoice.Domain/Services/InvoiceNumberGenerator.cs:40 | any two numbers are comparable in ordinal string order |
| InvoiceNumbers.OrdinalLeTransitive | aspnet-core/src/CustomerInvoice.Domain/Services/InvoiceNumberGenerator.cs:40 | ordinal order is transitive |
| InvoiceNumbers.OrdinalLeAntisymmetric | aspnet-core/src/CustomerInvoice.Domain/Services/InvoiceNumberGenerator.cs:40 | two strings each ordinally at most the other are equal, so the descending sort has one first element |
| InvoiceNumbers.OrdinalLeCommonPrefix | aspnet-core/src/CustomerInvoice.Domain/Services/InvoiceNumberGenerator.cs:39-40 | numbers sharing the month prefix compare as their suffixes do |
| InvoiceNumbers.OrdinalLeIsNumeric | aspnet-core/src/CustomerInvoice.Domain/Services/InvoiceNumberGenerator.cs:40 | on digit suffixes of equal length, string order is numeric order |
| InvoiceNumbers.MonthPrefixShape | aspnet-core/src/CustomerInvoice.Domain/Services/InvoiceNumberGenerator.cs:28-30 | the prefix is "INV-", four year digits, two month digits and "-": eleven characters |
| InvoiceNumbers.MonthPrefixInjective | aspnet-core/src/CustomerInvoice.Domain/Services/InvoiceNumberGenerator.cs:28-30 | two instants share a prefix only if they are in the same year and month |
| InvoiceNumbers.WithPrefix | aspnet-core/src/CustomerInvoice.Domain/Services/InvoiceNumberGenerator.cs:39 | keeps exactly the stored numbers that start with the prefix |
| InvoiceNumbers.Greatest | aspnet-core/src/CustomerInvoice.Domain/Services/InvoiceNumberGenerator.cs:40-41 | the first element after the descending sort is a member that is ordinally at least every member |
| InvoiceNumbers.GreatestIsUnique | aspnet-core/src/CustomerInvoice.Domain/Services/InvoiceNumberGenerator.cs:40-41 | any member dominating the list is the one the sort puts first |
| InvoiceNumbers.LastOfMonth | aspnet-core/src/CustomerInvoice.Domain/Services/InvoiceNumberGenerator.cs:38-41 | none exactly when no stored number carries the prefix; otherwise a stored number with the prefix dominating all such numbers |
| InvoiceNumbers.NextSequence | aspnet-core/src/CustomerInvoice.Domain/Services/InvoiceNumberGenerator.cs:44-54 | 1 when there is no base or its suffix does not parse; otherwise the parsed value plus one, wrapping at Int32.MaxValue |
| InvoiceNumbers.Generate | aspnet-core/src/CustomerInvoice.Domain/Services/InvoiceNumberGenerator.cs:26-58 | the result always starts with the current month's prefix |
| InvoiceNumbers.GeneratedNumberFits | aspnet-core/src/CustomerInvoice.Domain/Services/InvoiceNumberGenerator.cs:57 | every generated number is 15 to 22 characters and passes the invoice constructor's 50-character number check |
| InvoiceNumbers.FirstOfMonth | aspnet-core/src/CustomerInvoice.Domain/Services/InvoiceNumberGenerator.cs:44-57 | with no number of the current month stored, the result is the prefix followed by 0001 |
| InvoiceNumbers.OnlyTheMonthMatters | aspnet-core/src/CustomerInvoice.Domain/Services/InvoiceNumberGenerator.cs:39-41 | two stores with the same numbers of the current month give the same result, whatever other months, order or repetition they hold |
| InvoiceNumbers.ContinuesFromGreatest | aspnet-core/src/CustomerInvoice.Domain/Services/InvoiceNumberGenerator.cs:46-57 | if the dominating number's suffix parses as n, the result is the prefix and n + 1 zero-padded to four digits, whose suffix parses back to n + 1 |
| InvoiceNumbers.RestartsOnUnparsableSuffix | aspnet-core/src/CustomerInvoice.Domain/Services/InvoiceNumberGenerator.cs:50 | an unparsable suffix on the dominating number restarts the sequence at 0001 |
| InvoiceNumbers.SequenceRoundTrip | aspnet-core/src/CustomerInvoice.Domain/Services/InvoiceNumberGenerator.cs:57 | for sequence values 1 to 9999 the number is exactly 15 characters, within the limit of 50, and its suffix parses back to the value |
| InvoiceNumbers.LargerSuffixSortsLater | aspnet-core/src/CustomerInvoice.Domain/Services/InvoiceNumberGenerator.cs:40 | behind the same prefix, a digit suffix of equal length and larger value sorts after a smaller one |
| InvoiceNumbers.GenerateIsFresh | aspnet-core/src/CustomerInvoice.Domain/Services/InvoiceNumberGenerator.cs:26-58 | while every number of the month has a four-digit suffix, the generated number is not already stored |
| InvoiceNumbers.TenThousandFacts | aspnet-core/src/CustomerInvoice.Domain/Services/InvoiceNumberGenerator.cs:40 | "10000" sorts before "9999"; 9999 parses and 10000 formats as five digits |
| InvoiceNumbers.StringOrderRepeatsAfter9999 | aspnet-core/src/CustomerInvoice.Domain/Services/InvoiceNumberGenerator.cs:40-57 | with ...-9999 and ...-10000 both stored, the base is ...-9999 and ...-10000 is generated again |
| InvoiceNumbers.NewMonthRestarts | aspnet-core/src/CustomerInvoice.Domain/Services/InvoiceNumberGenerator.cs:28-44 | when every stored number belongs to another month, the result is the current prefix followed by 0001 |
| InvoiceNumbers.January2026Prefix | aspnet-core/src/CustomerInvoice.Domain/Services/InvoiceNumberGenerator.cs:28-30 | every instant of January 2026 has the prefix INV-202601- |
| InvoiceNumbers.SevenIsFollowedByEight | aspnet-core/src/CustomerInvoice.Domain/Services/InvoiceNumberGenerator.cs:49-57 | in any month, ...-0007 as the only number is followed by ...-0008 |
| InvoiceNumbers.January2026 | aspnet-core/src/CustomerInvoice.Domain/Services/InvoiceNumberGenerator.cs:23-24 | the documented example: January 2026 starts at INV-202601-0001, and INV-202601-0007 is followed by INV-202601-0008 |
| LineItems.FieldError | aspnet-core/src/CustomerInvoice.Domain/Entities/LineItem.cs:67-69 | no error exactly when the description passes its check, the quantity is positive and the price is non-negative; otherwise the error of the first failing check, in the order description, quantity, price |
| LineItems.LineItem.Total | aspnet-core/src/CustomerInvoice.Domain/Entities/LineItem.cs:41 | the total of a valid line item is never negative, and is positive when quantity and price are |
| LineItems.LineItem.Blank | aspnet-core/src/CustomerInvoice.Domain/Entities/LineItem.cs:51-53 | the ORM constructor leaves the identity and default field values |
| LineItems.LineItem.Load | aspnet-core/src/CustomerInvoice.Domain/Entities/LineItem.cs:51-53 | a stored line item is loaded with every column copied and no check run |
| LineItems.LineItem.Create | aspnet-core/src/CustomerInvoice.Domain/Entities/LineItem.cs:58-70 | fails exactly when a field check fails, with the first failing check's error; otherwise a fresh valid item with the given id, the invoice id copied unchecked, and the fields as given |
| LineItems.LineItem.SetDescription | aspnet-core/src/CustomerInvoice.Domain/Entities/LineItem.cs:75-82 | accepts exactly a non-blank description of at most 500 UTF-16 code units and stores it verbatim; a refusal leaves the description unchanged |
| LineItems.LineItem.SetQuantity | aspnet-core/src/CustomerInvoice.Domain/Entities/LineItem.cs:87-96 | accepts exactly a positive quantity; a refusal leaves the quantity unchanged |
| LineItems.LineItem.SetUnitPrice | aspnet-core/src/CustomerInvoice.Domain/Entities/LineItem.cs:101-110 | accepts exactly a non-negative price, zero included; a refusal leaves the price unchanged |
| LineItems.LineItem.Update | aspnet-core/src/CustomerInvoice.Domain/Entities/LineItem.cs:115-120 | succeeds exactly when all three checks pass, leaving a valid item; otherwise the fields checked before the failing one are already overwritten and the rest are unchanged |
| Invoices.SumOfTotalsConcat | aspnet-core/src/CustomerInvoice.Domain/Entities/Invoice.cs:63 | the sum of the line totals over two lists joined is the sum of their sums |
| Invoices.SumOfValidTotalsIsNonNegative | aspnet-core/src/CustomerInvoice.Domain/Entities/Invoice.cs:63 | valid line items never sum below zero |
| Invoices.SumAfterAppend | aspnet-core/src/CustomerInvoice.Domain/Entities/Invoice.cs:159-168 | appending a line item raises the subtotal by exactly that item's total |
| Invoices.FirstIndexOf | aspnet-core/src/CustomerInvoice.Domain/Entities/Invoice.cs:181 | none exactly when no item has the id; otherwise the position of the first item with it |
| Invoices.RemoveFirst | aspnet-core/src/CustomerInvoice.Domain/Entities/Invoice.cs:181-185 | the list unchanged when no item has the id; otherwise the list without the first such item, one shorter, the others in order |
| Invoices.SumAfterRemoveFirst | aspnet-core/src/CustomerInvoice.Domain/Entities/Invoice.cs:173-186 | removing by id lowers the subtotal by the removed item's total, or leaves it unchanged for an absent id |
| Invoices.CancelledIsTerminal | aspnet-core/src/CustomerInvoice.Domain/Entities/Invoice.cs:145-154 | no sequence of status changes leads a Cancelled invoice anywhere else |
| Invoices.OnlyCancelledIsTerminal | aspnet-core/src/CustomerInvoice.Domain/Entities/Invoice.cs:145-154 | from any other status, Paid included, one call reaches any status |
| Invoices.DateError | aspnet-core/src/CustomerInvoice.Domain/Entities/Invoice.cs:114-140 | no error exactly when the invoice day is not after today and the due day, if any, is not before the invoice day; a future invoice date is reported first |
| Invoices.ConstructionError | aspnet-core/src/CustomerInvoice.Domain/Entities/Invoice.cs:90-93 | the number is checked first, then the invoice date, then the due date against the new invoice date; no error exactly when all pass |
| Invoices.Invoice.SubTotal | aspnet-core/src/CustomerInvoice.Domain/Entities/Invoice.cs:63 | zero for no line items and never negative when all items are valid |
| Invoices.Invoice.CanEdit | aspnet-core/src/CustomerInvoice.Domain/Entities/Invoice.cs:207-210 | true exactly for Draft, Pending and Sent |
| Invoices.Invoice.Blank | aspnet-core/src/CustomerInvoice.Domain/Entities/Invoice.cs:73-76 | the ORM constructor leaves default values and an empty line-item list |
| Invoices.Invoice.Load | aspnet-core/src/CustomerInvoice.Domain/Entities/Invoice.cs:73-76 | a stored invoice is loaded with every column copied, no check run and no line items |
| Invoices.Invoice.Create | aspnet-core/src/CustomerInvoice.Domain/Entities/Invoice.cs:81-97 | fails exactly when the construction checks fail, with their first error; otherwise a fresh invoice with consistent dates, the given number, customer, dates and status, tax 0 and no line items |
| Invoices.Invoice.SetInvoiceNumber | aspnet-core/src/CustomerInvoice.Domain/Entities/Invoice.cs:102-109 | accepts exactly a non-blank number of at most 50 UTF-16 code units and stores it verbatim; a refusal leaves the number unchanged |
| Invoices.Invoice.SetInvoiceDate | aspnet-core/src/CustomerInvoice.Domain/Entities/Invoice.cs:114-124 | refuses exactly a date whose day is after today's; today at any time of day is accepted; a refusal leaves the date unchanged |
| Invoices.Invoice.SetDueDate | aspnet-core/src/CustomerInvoice.Domain/Entities/Invoice.cs:129-140 | accepts exactly no due date or one not on a day before the invoice date, leaving the dates consistent; a refusal leaves the due date unchanged |
| Invoices.Invoice.UpdateStatus | aspnet-core/src/CustomerInvoice.Domain/Entities/Invoice.cs:145-154 | refuses exactly a change away from Cancelled, leaving the status as it was; every other change is applied, leaving Paid and Cancelled to Cancelled included |
| Invoices.Invoice.AddLineItem | aspnet-core/src/CustomerInvoice.Domain/Entities/Invoice.cs:159-168 | refuses exactly on a Paid invoice, leaving the list unchanged; otherwise appends the item at the end, on a Cancelled invoice too, checking neither its invoice id nor a duplicate id |
| Invoices.Invoice.RemoveLineItem | aspnet-core/src/CustomerInvoice.Domain/Entities/Invoice.cs:173-186 | refuses exactly on a Paid invoice; otherwise removes the first item with the id and keeps the others in order; an absent id changes nothing and is no error |
| Invoices.Invoice.Update | aspnet-core/src/CustomerInvoice.Domain/Entities/Invoice.cs:191-202 | on a Paid invoice refuses with nothing changed; otherwise sets the invoice date, the due date and the tax (no sign check) in turn, so a refused due date leaves the new invoice date applied and the old tax |
| Customers.FieldError | aspnet-core/src/CustomerInvoice.Domain/Entities/Customer.cs:57-61 | no error exactly when name and email pass their checks; otherwise the name error before the email error |
| Customers.EmailShapeIsNotChecked | aspnet-core/src/CustomerInvoice.Domain/Entities/Customer.cs:82-89 | an address without an at sign passes the email check |
| Customers.Customer.Blank | aspnet-core/src/CustomerInvoice.Domain/Entities/Customer.cs:49-52 | the ORM constructor leaves default values and an empty invoice collection |
| Customers.Customer.Create | aspnet-core/src/CustomerInvoice.Domain/Entities/Customer.cs:57-65 | fails exactly when name or email fails, name first; otherwise a fresh valid customer with the given values, phone and address unchecked, and no invoices |
| Customers.Customer.SetName | aspnet-core/src/CustomerInvoice.Domain/Entities/Customer.cs:70-77 | accepts exactly a non-blank name of at most 200 UTF-16 code units and stores it verbatim; a refusal leaves the name unchanged |
| Customers.Customer.SetEmail | aspnet-core/src/CustomerInvoice.Domain/Entities/Customer.cs:82-89 | accepts exactly a non-blank email of at most 256 UTF-16 code units, whatever its shape; a refusal leaves the email unchanged |
| Customers.Customer.Update | aspnet-core/src/CustomerInvoice.Domain/Entities/Customer.cs:94-100 | succeeds exactly when name and email pass; a refused email leaves the new name applied and the old email, phone and address; phone and address are stored unchecked |
| InvoiceApp.ItemRows | aspnet-core/src/CustomerInvoice.Application/Invoices/InvoiceAppService.cs:82 | the line-item rows saved with an invoice are keyed by exactly the ids of its line items |
| InvoiceApp.InputRow | aspnet-core/src/CustomerInvoice.Application/Invoices/InvoiceAppService.cs:71-77 | a line item built from valid input is stored as a valid row carrying the invoice id, quantity, price and description given |
| InvoiceApp.FirstItemError | aspnet-core/src/CustomerInvoice.Application/Invoices/InvoiceAppService.cs:69-79 | no error exactly when every line-item input is valid; otherwise the error of the first invalid one in input order |
| InvoiceApp.FirstItemErrorOfPrefix | aspnet-core/src/CustomerInvoice.Application/Invoices/InvoiceAppService.cs:69-79 | once the loop meets an invalid input, later inputs do not change the error thrown |
| InvoiceApp.NewItemRows | aspnet-core/src/CustomerInvoice.Application/Invoices/InvoiceAppService.cs:69-79 | one row per new id, each carrying the new invoice's id, all valid when every input is |
| InvoiceApp.NewItemRowsContents | aspnet-core/src/CustomerInvoice.Application/Invoices/InvoiceAppService.cs:69-79 | with distinct ids, the i-th new line item is stored from the i-th input |
| InvoiceApp.NumbersOf | aspnet-core/src/CustomerInvoice.Domain/Services/InvoiceNumberGenerator.cs:33-37 | every stored invoice's number is among the numbers the generator queries |
| InvoiceApp.BuildError | aspnet-core/src/CustomerInvoice.Application/Invoices/InvoiceAppService.cs:56-79 | building the invoice fails on the dates first (the input date or now), then on the first invalid line item; no error exactly when all pass |
| InvoiceApp.CreateError | aspnet-core/src/CustomerInvoice.Application/Invoices/InvoiceAppService.cs:47-79 | a missing customer is reported before anything else; otherwise the build errors |
| InvoiceApp.ItemRowsMatch | aspnet-core/src/CustomerInvoice.Application/Invoices/InvoiceAppService.cs:69-82 | line items carrying the new ids and inputs position by position are saved as exactly the new rows |
| InvoiceApp.AppendLineItems | aspnet-core/src/CustomerInvoice.Application/Invoices/InvoiceAppService.cs:69-79 | the loop throws exactly the first input error; otherwise the invoice holds one line item per input, in input order, each with its new id and the invoice's id |
| InvoiceApp.BuildInvoice | aspnet-core/src/CustomerInvoice.Application/Invoices/InvoiceAppService.cs:56-79 | fails exactly with the build error; otherwise a fresh Draft invoice with the generated number, the customer, the input date or now, the due date and the tax unchecked, and the input's line items in order |
| InvoiceApp.Window | aspnet-core/src/CustomerInvoice.Application/Invoices/InvoiceAppService.cs:118-119 | the page skips skip entries and holds at most take of the rest, in listing order |
| InvoiceApp.InsertByDate | aspnet-core/src/CustomerInvoice.Application/Invoices/InvoiceAppService.cs:117 | inserting into a newest-first listing keeps it newest first |
| InvoiceApp.InsertByDateIsPermutation | aspnet-core/src/CustomerInvoice.Application/Invoices/InvoiceAppService.cs:117 | insertion adds the id and keeps every other entry |
| InvoiceApp.InsertKeepsConsistent | aspnet-core/src/CustomerInvoice.Application/Invoices/InvoiceAppService.cs:82 | saving a valid invoice of a stored customer with valid line items of that invoice keeps every reference resolved and every row valid |
| InvoiceApp.InvoiceAppService.constructor | aspnet-core/src/CustomerInvoice.Application/Invoices/InvoiceAppService.cs:31-42 | a service over a customer table and empty invoice and line-item tables is consistent |
| InvoiceApp.InvoiceAppService.ExistingNumbers | aspnet-core/src/CustomerInvoice.Domain/Services/InvoiceNumberGenerator.cs:33-37 | the query returns the number of every stored invoice and nothing else |
| InvoiceApp.InvoiceAppService.Insert | aspnet-core/src/CustomerInvoice.Application/Invoices/InvoiceAppService.cs:82-85 | the invoice row and its line-item rows are added and the store stays consistent |
| InvoiceApp.InvoiceAppService.GenerateNumber | aspnet-core/src/CustomerInvoice.Application/Invoices/InvoiceAppService.cs:53 | the number is the generator's result over the stored numbers and passes the invoice number check |
| InvoiceApp.InvoiceAppService.Create | aspnet-core/src/CustomerInvoice.Application/Invoices/InvoiceAppService.cs:47-88 | fails exactly with the creation error, storing nothing; otherwise stores a Draft invoice with the generated number, the input date or now and the tax unchecked, plus one line-item row per input carrying the new invoice's id; the store stays consistent |
| InvoiceApp.InvoiceAppService.Update | aspnet-core/src/CustomerInvoice.Application/Invoices/InvoiceAppService.cs:131-146 | a missing invoice, then a Paid or Cancelled one, is refused before any change; otherwise the date checks decide, and success replaces only the dates and the tax |
| InvoiceApp.InvoiceAppService.UpdateStatus | aspnet-core/src/CustomerInvoice.Application/Invoices/InvoiceAppService.cs:151-158 | a missing invoice is refused; otherwise only a change away from Cancelled is refused, and success changes nothing but the status |
| InvoiceApp.InvoiceAppService.AddLineItem | aspnet-core/src/CustomerInvoice.Application/Invoices/InvoiceAppService.cs:176-192 | a missing invoice, then invalid input, then a Paid invoice is refused; a Cancelled invoice accepts the line item, which is stored with the invoice's id |
| InvoiceApp.InvoiceAppService.UpdateLineItem | aspnet-core/src/CustomerInvoice.Application/Invoices/InvoiceAppService.cs:197-221 | refuses, in turn, a missing invoice, a Paid or Cancelled invoice, a missing line item, a line item of another invoice and invalid input, changing nothing; otherwise replaces only that row |
| InvoiceApp.InvoiceAppService.RemoveLineItem | aspnet-core/src/CustomerInvoice.Application/Invoices/InvoiceAppService.cs:226-234 | a missing or Paid invoice is refused with nothing deleted; otherwise the id is deleted from the line-item table whichever invoice owns it |
| InvoiceApp.InvoiceAppService.GetList | aspnet-core/src/CustomerInvoice.Application/Invoices/InvoiceAppService.cs:109-126 | the total count is the number of stored invoices, and the page is the skip/take window of a listing of every stored invoice once, newest invoice date first |
| InvoiceApp.InvoiceAppService.Materialize | aspnet-core/src/CustomerInvoice.Application/Invoices/InvoiceAppService.cs:133 | the loaded invoice carries the stored row's values and no line items |
| SampleData.SeedDescriptionsAreValid | aspnet-core/src/CustomerInvoice.Domain/Data/CustomerInvoiceDataSeederContributor.cs:83-97 | both seeded descriptions pass the description check |
| SampleData.SumOfTwo | aspnet-core/src/CustomerInvoice.Domain/Entities/Invoice.cs:63 | two line items sum to the sum of their totals |
| SampleData.SeedEmptyDraft | aspnet-core/src/CustomerInvoice.Domain/Data/CustomerInvoiceDataSeederContributor.cs:71-81 | the invoice dated in the past with a later due date is created as a Draft with tax 50 and no line items |
| SampleData.AddBoth | aspnet-core/src/CustomerInvoice.Domain/Data/CustomerInvoiceDataSeederContributor.cs:99-100 | both items are added to the Draft invoice in order, for a subtotal of 5500 |
| SampleData.SeedDraftInvoice | aspnet-core/src/CustomerInvoice.Domain/Data/CustomerInvoiceDataSeederContributor.cs:71-100 | 40 x 125 and 5 x 100 on the Draft invoice give a subtotal of 5500 |
| SampleData.SeedPaidInvoiceWith | aspnet-core/src/CustomerInvoice.Domain/Data/CustomerInvoiceDataSeederContributor.cs:71-103 | for any valid descriptions: subtotal 5500, grand total 5550, status Paid, and a further line item is refused with the subtotal unchanged |
| SampleData.SeedPaidInvoice | aspnet-core/src/CustomerInvoice.Domain/Data/CustomerInvoiceDataSeederContributor.cs:71-103 | the seeded invoice has subtotal 5500 and grand total 5550 and is Paid, after which adding a line item fails |

## Left out

- Invoices.Invoice.AddLineItem: its contract gives the new list, not the new subtotal. `Invoices.SumAfterAppend` states the subtotal's change, to keep the real multiplication of line totals out of method proofs.
- Invoices.Invoice.RemoveLineItem: its contract gives the new list, not the new subtotal. `Invoices.SumAfterRemoveFirst` states the subtotal's change.
- Invoices.Invoice.GrandTotal: has no contract of its own; `Invoices.Invoice.Update` and the seeder lemmas state it as subtotal plus tax.
- Strings are sequences of Unicode scalar values, so a .NET string holding a lone surrogate cannot be represented. Lengths are counted in UTF-16 code units, as `string.Length` does.
- Numerals.TryParseInt32: accepts only plain digit runs. `int.TryParse`'s leniency (surrounding white space, a sign) and culture settings are not modelled. Parsing the generator's own output never involves either.
- InvoiceNumbers.MonthPrefix: the year and month are Gregorian. `ToString("yyyyMM")` formats with the current culture's calendar, which is not modelled (under a Thai culture, for example, 2026 would print as 2569).
- InvoiceNumbers.Generate: string order is ordinal. A database collation that orders differently is not modelled.
- One `now` per operation: the separate reads of `DateTime.Now` inside one call (generator, constructor, setters) are taken to fall on the same day.
- `DateTime` is reduced to a calendar date and a tick of the day. Time zones, `DateTimeKind` and `AddDays` arithmetic are not modelled. The seeder's "30 days ago" and "15 days ago" become any two days in that order, not in the future.
- `decimal` precision, overflow and the `decimal(18,2)` column rounding are not modelled. Money is an exact unbounded number.
- The unique index on the invoice number is database behaviour and is not modelled. Neither are soft delete and the audit columns.
- The ids the GUID generator hands out are parameters. The service methods require them to be new to their tables.
- DTO validation attributes (`[Range]`, `[EmailAddress]`, `[Required]`) are enforced by the framework before the service runs and are not modelled.
- The DTOs the service methods return, and `GetAsync` that builds them, are not modelled. The model returns the id or the outcome and keeps the stored rows.
- `GetByCustomerIdAsync` is a query with no rule of its own and is not modelled.
- The inherited `DeleteAsync` of the CRUD base class is not part of this model. Neither is `CustomerAppService`.
- Navigation properties (`Invoice.Customer`, `LineItem.Invoice`) are not modelled. The customer's invoice collection is a sequence of ids that only starts empty.
- Loading an invoice's line items with it is not modelled. The service methods load the invoice row alone, since none of their checks reads the line items. The entity's list is therefore empty inside `AddLineItemAsync` and `RemoveLineItemAsync`, and the line-item table is what they change.
- Async execution, the unit-of-work save, and the race in which two concurrent `GenerateAsync` calls return the same number are not modelled. Every service call runs alone, and a failing call is rolled back as a whole.
- The seeder's other invoices, its customers and its repository I/O are not modelled. Only its first invoice is replayed, on the aggregate.
