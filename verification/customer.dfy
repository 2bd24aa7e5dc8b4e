/** The customer value object (src/domain/Customer.ts): three required text
    fields, checked for JavaScript truthiness and then stored unchanged. */
module Domain {
  import opened Wrappers

  /** A field as it arrives from the customer record: absent (`undefined`
      or `null`) or a string. */
  datatype Field = Missing | Str(s: string)

  /** JavaScript truthiness of a field: present and not the empty string.
      Nothing else is checked, so whitespace-only text is truthy. */
  predicate Truthy(f: Field)
  {
    f.Str? && |f.s| > 0
  }

  /** A constructed customer; its fields are never changed afterwards. */
  datatype Customer = Customer(name: string, email: string, orderId: string)
  {
    /** The invariant every constructed customer has. */
    predicate Valid()
    {
      |name| > 0 && |email| > 0 && |orderId| > 0
    }
  }

  /** The error thrown by the constructor. */
  datatype ValidationError = ValidationError(message: string)

  /** The constructor's one error message, the same whichever field is missing. */
  const MissingFieldMessage: string := "Customer requires name, email, and orderId"

  /** The `Customer` constructor: rejects the record when any field is falsy,
      otherwise copies the three values verbatim. */
  function NewCustomer(name: Field, email: Field, orderId: Field): (r: Result<Customer, ValidationError>)
    ensures r.Success? <==> Truthy(name) && Truthy(email) && Truthy(orderId)
    ensures r.Success? ==> r.value.Valid()
    ensures r.Success? ==>
      Str(r.value.name) == name && Str(r.value.email) == email && Str(r.value.orderId) == orderId
    ensures r.Failure? ==> r.error == ValidationError(MissingFieldMessage)
  {
    if !Truthy(name) || !Truthy(email) || !Truthy(orderId) then
      Failure(ValidationError(MissingFieldMessage))
    else
      Success(Customer(name.s, email.s, orderId.s))
  }

  /** Re-constructing a customer from its own fields gives exactly that
      customer back, and only valid customers can be obtained this way. */
  lemma NewCustomerOfFields(c: Customer)
    ensures NewCustomer(Str(c.name), Str(c.email), Str(c.orderId)) ==
      (if c.Valid() then Success(c) else Failure(ValidationError(MissingFieldMessage)))
  {
  }

  /** Any two rejected records are rejected with the identical error: the
      message does not reveal which field was missing. */
  lemma RejectionIsUniform(n1: Field, e1: Field, o1: Field, n2: Field, e2: Field, o2: Field)
    requires NewCustomer(n1, e1, o1).Failure? && NewCustomer(n2, e2, o2).Failure?
    ensures NewCustomer(n1, e1, o1) == NewCustomer(n2, e2, o2)
  {
  }

  /** Neither whitespace nor address syntax is inspected: any non-empty
      strings, e.g. a name of one space and an email without '@', are accepted
      as they are. */
  lemma AcceptsAnyNonEmptyText(name: string, email: string, orderId: string)
    requires |name| > 0 && |email| > 0 && |orderId| > 0
    ensures NewCustomer(Str(name), Str(email), Str(orderId)) == Success(Customer(name, email, orderId))
  {
  }
}
