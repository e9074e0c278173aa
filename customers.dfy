/**
 * The customer screen (Customers.tsx): a `Sections.Section` of customers
 * whose form holds the contact details only, and its search. The form is a
 * customer record whose id and totals are not used.
 */
module Customers {
  import opened Text
  import opened Types
  import opened KeyedList
  import opened Sections
  import DocumentForm

  /** `handleEdit` copies the four contact details into the form. */
  function ContactFormOf(c: Customer): Customer {
    BlankCustomer.(name := c.name, email := c.email, phone := c.phone, address := c.address)
  }

  /** `handleUpdateCustomer`: the form's contact details on the edited
    * customer's id and totals. */
  function UpdatedCustomer(form: Customer, edited: Customer): Customer {
    edited.(name := form.name, email := form.email, phone := form.phone, address := form.address)
  }

  /** Add saves the form's details under a new id with no orders, the same
    * record the document form's save-customer button creates. */
  const CustomerHandlers: Handlers<Customer> :=
    Handlers(CustomerId, BlankCustomer, ContactFormOf, (f: Customer) => true,
             DocumentForm.NewCustomer, UpdatedCustomer)

  /** Name and email are searched ignoring case, the phone number as typed. */
  predicate CustomerMatches(c: Customer, term: string) {
    MatchesIgnoringCase(c.name, term) || MatchesIgnoringCase(c.email, term) || Includes(c.phone, term)
  }

  /** `filteredCustomers` */
  function FilteredCustomers(customers: seq<Customer>, term: string): seq<Customer> {
    Filter(customers, (c: Customer) => CustomerMatches(c, term))
  }

  // ---------------------------------------------------------------------
  // Properties
  // ---------------------------------------------------------------------

  /** A new customer has the new id, the form's contact details and no
    * orders or spending; an updated customer keeps the edited customer's
    * id, orders and spending and takes the form's contact details. */
  lemma SavedCustomersSpec(f: Customer, e: Customer, newId: string)
    ensures var n := CustomerHandlers.withNewId(f, newId);
      && n.id == newId && n.totalOrders == 0 && n.totalSpent == 0.0
      && n.name == f.name && n.email == f.email && n.phone == f.phone && n.address == f.address
    ensures var u := CustomerHandlers.withEdited(f, e);
      && u.id == e.id && u.totalOrders == e.totalOrders && u.totalSpent == e.totalSpent
      && u.name == f.name && u.email == f.email && u.phone == f.phone && u.address == f.address
  {
  }

  /** An untouched edit writes back the same customer, and the blank form
    * is what the edit form of a blank customer looks like. */
  lemma EditRoundTrip(c: Customer)
    ensures CustomerHandlers.withEdited(CustomerHandlers.formOf(c), c) == c
    ensures CustomerHandlers.formOf(BlankCustomer) == CustomerHandlers.blank
  {
  }

  /** A customer is listed exactly when the term occurs in the lower-cased
    * name or email (term lower-cased too), or in the phone number as typed;
    * an empty term lists everyone. */
  lemma FilteredCustomersSpec(customers: seq<Customer>, term: string)
    ensures forall c :: c in FilteredCustomers(customers, term) <==>
              c in customers &&
              (Includes(Lower(c.name), Lower(term)) || Includes(Lower(c.email), Lower(term)) || Includes(c.phone, term))
    ensures term == "" ==> FilteredCustomers(customers, term) == customers
  {
    var keep := (c: Customer) => CustomerMatches(c, term);
    FilterMembers(customers, keep);
    if term == "" {
      forall i | 0 <= i < |customers| ensures keep(customers[i]) {
        EmptyTermMatchesEverything(customers[i].name);
      }
      FilterKeepsAll(customers, keep);
    }
  }

  /** The phone search does not ignore case: a customer whose phone field
    * holds `x` is found by `x` but not by `X`, although `X` matches that
    * field once case is ignored as it is for the name and email. */
  lemma PhoneSearchIsCaseSensitive()
    ensures var c := Customer("1", "a", "b", "x", "", 0, 0.0);
            CustomerMatches(c, "x") && !CustomerMatches(c, "X") && MatchesIgnoringCase(c.phone, "X")
  {
    assert Lower("X") == "x";
    assert Lower("a") == "a";
    assert Lower("b") == "b";
    assert Lower("x") == "x";
    assert !Includes("", "x");
    assert !Includes("a", "x") by { assert "a"[0] != "x"[0] && "a"[1..] == ""; }
    assert !Includes("b", "x") by { assert "b"[0] != "x"[0] && "b"[1..] == ""; }
    assert !Includes("x", "X") by { assert "x"[1..] == ""; }
    assert Includes("x", "x");
  }
}
