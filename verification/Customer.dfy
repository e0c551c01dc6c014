/** A customer: validated name and email, unchecked phone and billing
    address, and the (initially empty) collection of its invoices. */
module Customers {
  import opened Foundation
  import opened DomainShared
  import Check

  /** The name rule: not null, not blank, at most 200 UTF-16 code units. */
  predicate IsValidName(name: Option<string>) {
    Check.NotNullOrWhiteSpace(name, NameField, MaxNameLength).Ok?
  }

  /** The email rule: not null, not blank, at most 256 UTF-16 code units; the shape
      of the address is not looked at. */
  predicate IsValidEmail(email: Option<string>) {
    Check.NotNullOrWhiteSpace(email, EmailField, MaxEmailLength).Ok?
  }

  /** The error the constructor and `Update` raise, name checked before
      email; None when both pass. */
  function FieldError(name: Option<string>, email: Option<string>): (e: Option<Error>)
    ensures e.None? <==> IsValidName(name) && IsValidEmail(email)
    ensures !IsValidName(name) ==> e == Some(ArgumentInvalid(NameField))
    ensures IsValidName(name) && !IsValidEmail(email) ==> e == Some(ArgumentInvalid(EmailField))
  {
    if !IsValidName(name) then Some(ArgumentInvalid(NameField))
    else if !IsValidEmail(email) then Some(ArgumentInvalid(EmailField))
    else None
  }

  /** Any non-blank text up to 256 UTF-16 code units is an acceptable email, an
      address without an at sign included. */
  lemma EmailShapeIsNotChecked()
    ensures IsValidEmail(Some("x"))
  {
    assert !Check.IsWhiteSpace("x"[0]);
  }

  class Customer {
    const id: Guid
    var name: string
    var email: string
    var phone: Option<string>
    var billingAddress: Option<string>
    /** The ids of the invoices in the navigation collection. */
    var invoices: seq<Guid>

    /** What every successful constructor and `Update` leaves behind. */
    predicate Valid()
      reads this
    {
      IsValidName(Some(name)) && IsValidEmail(Some(email))
    }

    /** The parameterless constructor the ORM uses: identity, default values
        and an empty invoice collection. */
    constructor Blank(id: Guid)
      ensures this.id == id && name == "" && email == ""
      ensures phone == None && billingAddress == None && invoices == []
    {
      this.id := id;
      name := "";
      email := "";
      phone := None;
      billingAddress := None;
      invoices := [];
    }

    /** `new Customer(id, name, email, phone, billingAddress)`: name, then
        email through their setters, then phone and address copied as given. */
    static method Create(id: Guid, name: Option<string>, email: Option<string>,
                         phone: Option<string>, billingAddress: Option<string>)
      returns (r: Result<Customer>)
      ensures r.Err? <==> FieldError(name, email).Some?
      ensures r.Err? ==> r.error == FieldError(name, email).value
      ensures r.Ok? ==> fresh(r.value) && r.value.Valid()
      ensures r.Ok? ==> r.value.id == id && r.value.name == name.value && r.value.email == email.value
      ensures r.Ok? ==> r.value.phone == phone && r.value.billingAddress == billingAddress
      ensures r.Ok? ==> r.value.invoices == []
    {
      var customer := new Customer.Blank(id);
      var o := customer.SetName(name);
      if o.Fail? { return Err(o.error); }
      o := customer.SetEmail(email);
      if o.Fail? { return Err(o.error); }
      customer.phone := phone;
      customer.billingAddress := billingAddress;
      customer.invoices := [];
      return Ok(customer);
    }

    /** Stores the name verbatim when it is not blank and at most 200 UTF-16 code units. */
    method SetName(name: Option<string>) returns (o: Outcome)
      modifies this`name
      ensures o.Pass? <==> IsValidName(name)
      ensures o.Pass? ==> this.name == name.value
      ensures o.Fail? ==> o.error == ArgumentInvalid(NameField) && this.name == old(this.name)
    {
      var checked := Check.NotNullOrWhiteSpace(name, NameField, MaxNameLength);
      if checked.Err? { return Fail(checked.error); }
      this.name := checked.value;
      return Pass;
    }

    /** Stores the email verbatim when it is not blank and at most 256 UTF-16 code units. */
    method SetEmail(email: Option<string>) returns (o: Outcome)
      modifies this`email
      ensures o.Pass? <==> IsValidEmail(email)
      ensures o.Pass? ==> this.email == email.value
      ensures o.Fail? ==> o.error == ArgumentInvalid(EmailField) && this.email == old(this.email)
    {
      var checked := Check.NotNullOrWhiteSpace(email, EmailField, MaxEmailLength);
      if checked.Err? { return Fail(checked.error); }
      this.email := checked.value;
      return Pass;
    }

    /** Name, then email, then phone and address. Not atomic: a refused email
        leaves the new name in place and the old phone and address. Phone and
        address are stored whatever their length (the 50 and 500 character
        limits are only the database columns'). */
    method Update(name: Option<string>, email: Option<string>,
                  phone: Option<string>, billingAddress: Option<string>)
      returns (o: Outcome)
      modifies this`name, this`email, this`phone, this`billingAddress
      ensures o.Pass? <==> FieldError(name, email).None?
      ensures o.Fail? ==> o.error == FieldError(name, email).value
      ensures o.Pass? ==> Valid()
      ensures this.name == if IsValidName(name) then name.value else old(this.name)
      ensures this.email == if o.Pass? then email.value else old(this.email)
      ensures this.phone == if o.Pass? then phone else old(this.phone)
      ensures this.billingAddress == if o.Pass? then billingAddress else old(this.billingAddress)
    {
      o := SetName(name);
      if o.Fail? { return; }
      o := SetEmail(email);
      if o.Fail? { return; }
      this.phone := phone;
      this.billingAddress := billingAddress;
    }
  }
}
