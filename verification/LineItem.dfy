/** A line of an invoice: description, quantity and unit price, each checked
    by its own setter, and the derived line total. */
module LineItems {
  import opened Foundation
  import opened DomainShared
  import Check

  /** The description rule: not null, not blank, at most 500 UTF-16 code units. */
  predicate IsValidDescription(description: Option<string>) {
    Check.NotNullOrWhiteSpace(description, DescriptionField, MaxDescriptionLength).Ok?
  }

  /** The error the setters raise for these field values, checked in the
      order description, quantity, unit price; None when all three pass. */
  function FieldError(description: Option<string>, quantity: real, unitPrice: real): (e: Option<Error>)
    ensures e.None? <==> IsValidDescription(description) && quantity > 0.0 && unitPrice >= 0.0
    ensures !IsValidDescription(description) ==> e == Some(ArgumentInvalid(DescriptionField))
    ensures IsValidDescription(description) && quantity <= 0.0 ==> e == Some(QuantityMustBeGreaterThanZero)
    ensures IsValidDescription(description) && quantity > 0.0 && unitPrice < 0.0 ==> e == Some(UnitPriceCannotBeNegative)
  {
    if !IsValidDescription(description) then Some(ArgumentInvalid(DescriptionField))
    else if quantity <= 0.0 then Some(QuantityMustBeGreaterThanZero)
    else if unitPrice < 0.0 then Some(UnitPriceCannotBeNegative)
    else None
  }

  class LineItem {
    const id: Guid
    var invoiceId: Guid
    var description: string
    var quantity: real
    var unitPrice: real

    /** What every successful constructor and Update leaves behind. */
    predicate Valid()
      reads this`description, this`quantity, this`unitPrice
    {
      IsValidDescription(Some(description)) && quantity > 0.0 && unitPrice >= 0.0
    }

    /** `Quantity * UnitPrice` of the current fields, recomputed on each read;
        never negative on a valid line item. */
    function Total(): (t: real)
      reads this`quantity, this`unitPrice
      ensures Valid() ==> t >= 0.0
      ensures quantity > 0.0 && unitPrice > 0.0 ==> t > 0.0
    {
      quantity * unitPrice
    }

    /** The parameterless constructor the ORM uses: identity and default values. */
    constructor Blank(id: Guid)
      ensures this.id == id && invoiceId == 0 && description == ""
      ensures quantity == 0.0 && unitPrice == 0.0
    {
      this.id := id;
      invoiceId := 0;
      description := "";
      quantity := 0.0;
      unitPrice := 0.0;
    }

    /** The ORM loading a stored line item: every column copied, no check run. */
    constructor Load(id: Guid, invoiceId: Guid, description: string, quantity: real, unitPrice: real)
      ensures this.id == id && this.invoiceId == invoiceId && this.description == description
      ensures this.quantity == quantity && this.unitPrice == unitPrice
    {
      this.id := id;
      this.invoiceId := invoiceId;
      this.description := description;
      this.quantity := quantity;
      this.unitPrice := unitPrice;
    }

    /** `new LineItem(id, invoiceId, description, quantity, unitPrice)`: copies
        the invoice id unchecked, then runs the three setters in order; the
        first failing one aborts the construction. */
    static method Create(id: Guid, invoiceId: Guid, description: Option<string>, quantity: real, unitPrice: real)
      returns (r: Result<LineItem>)
      ensures r.Err? <==> FieldError(description, quantity, unitPrice).Some?
      ensures r.Err? ==> r.error == FieldError(description, quantity, unitPrice).value
      ensures r.Ok? ==> fresh(r.value) && r.value.Valid()
      ensures r.Ok? ==> r.value.id == id && r.value.invoiceId == invoiceId
      ensures r.Ok? ==> r.value.description == description.value
      ensures r.Ok? ==> r.value.quantity == quantity && r.value.unitPrice == unitPrice
    {
      var item := new LineItem.Blank(id);
      item.invoiceId := invoiceId;
      var o := item.SetDescription(description);
      if o.Fail? { return Err(o.error); }
      o := item.SetQuantity(quantity);
      if o.Fail? { return Err(o.error); }
      o := item.SetUnitPrice(unitPrice);
      if o.Fail? { return Err(o.error); }
      return Ok(item);
    }

    /** Stores the description verbatim (no trimming) when it is not blank and
        at most 500 UTF-16 code units long. */
    method SetDescription(description: Option<string>) returns (o: Outcome)
      modifies this`description
      ensures o.Pass? <==> IsValidDescription(description)
      ensures o.Pass? ==> this.description == description.value
      ensures o.Fail? ==> o.error == ArgumentInvalid(DescriptionField) && this.description == old(this.description)
    {
      var checked := Check.NotNullOrWhiteSpace(description, DescriptionField, MaxDescriptionLength);
      if checked.Err? { return Fail(checked.error); }
      this.description := checked.value;
      return Pass;
    }

    /** Stores any positive quantity; zero and negative ones are rejected. */
    method SetQuantity(quantity: real) returns (o: Outcome)
      modifies this`quantity
      ensures o.Pass? <==> quantity > 0.0
      ensures o.Pass? ==> this.quantity == quantity
      ensures o.Fail? ==> o.error == QuantityMustBeGreaterThanZero && this.quantity == old(this.quantity)
    {
      if quantity <= 0.0 { return Fail(QuantityMustBeGreaterThanZero); }
      this.quantity := quantity;
      return Pass;
    }

    /** Stores any non-negative unit price; zero (a free line) is accepted. */
    method SetUnitPrice(unitPrice: real) returns (o: Outcome)
      modifies this`unitPrice
      ensures o.Pass? <==> unitPrice >= 0.0
      ensures o.Pass? ==> this.unitPrice == unitPrice
      ensures o.Fail? ==> o.error == UnitPriceCannotBeNegative && this.unitPrice == old(this.unitPrice)
    {
      if unitPrice < 0.0 { return Fail(UnitPriceCannotBeNegative); }
      this.unitPrice := unitPrice;
      return Pass;
    }

    /** Runs the three setters in order and stops at the first failure, so a
        failing quantity or price leaves the fields before it already
        overwritten. The invoice id is never touched. */
    method Update(description: Option<string>, quantity: real, unitPrice: real) returns (o: Outcome)
      modifies this`description, this`quantity, this`unitPrice
      ensures o.Pass? <==> FieldError(description, quantity, unitPrice).None?
      ensures o.Fail? ==> o.error == FieldError(description, quantity, unitPrice).value
      ensures o.Pass? ==> Valid()
      ensures this.description == if IsValidDescription(description) then description.value else old(this.description)
      ensures this.quantity == if IsValidDescription(description) && quantity > 0.0 then quantity else old(this.quantity)
      ensures this.unitPrice == if o.Pass? then unitPrice else old(this.unitPrice)
    {
      o := SetDescription(description);
      if o.Fail? { return; }
      o := SetQuantity(quantity);
      if o.Fail? { return; }
      o := SetUnitPrice(unitPrice);
    }
  }
}
