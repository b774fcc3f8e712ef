/** The customer list of the admin panel (src/pages/admin/Customers.tsx):
    the search filter and the edit form's handling of the optional email. */
module AdminCustomers {
  import opened Seqs
  import opened Text
  import opened Entities

  /** the search box: name and email ignoring case, phone as typed */
  predicate MatchesSearch(c: Customer, term: string) {
    ContainsIgnoringCase(c.name, term)
    || Contains(c.phone, term)
    || (c.email.Some? && ContainsIgnoringCase(c.email.value, term))
  }

  /** filterCustomers */
  function FilterCustomers(customers: seq<Customer>, searchTerm: string): seq<Customer> {
    if searchTerm != "" then Filter(customers, (c: Customer) => MatchesSearch(c, searchTerm)) else customers
  }

  /** The filtered list keeps, in order, exactly the customers matching the
      term, and is the whole list for an empty term; a customer without an
      email can only be found by name or phone. */
  lemma {:induction false} FilterCustomersSpec(customers: seq<Customer>, searchTerm: string)
    ensures IsSubseq(FilterCustomers(customers, searchTerm), customers)
    ensures searchTerm == "" ==> FilterCustomers(customers, searchTerm) == customers
    ensures forall c :: c in FilterCustomers(customers, searchTerm)
                        <==> c in customers && (searchTerm == "" || MatchesSearch(c, searchTerm))
    ensures forall c :: c in FilterCustomers(customers, searchTerm) && searchTerm != "" && c.email.None?
                        ==> ContainsIgnoringCase(c.name, searchTerm) || Contains(c.phone, searchTerm)
  {
    var t := searchTerm;
    var q := (c: Customer) => t == "" || MatchesSearch(c, t);
    FilterWhen(customers, t != "", (c: Customer) => MatchesSearch(c, t), q);
    FilterIsSubseq(customers, q);
    forall c ensures c in Filter(customers, q) <==> c in customers && q(c) {
      FilterMembers(customers, q, c);
    }
    if t == "" {
      FilterAll(customers, q);
    }
  }

  // ----------------------------------------------------------------- form

  datatype CustomerForm = CustomerForm(name: string, phone: string, email: string, address: string)

  /** the record handleSubmit sends to the database */
  datatype CustomerData = CustomerData(name: string, phone: string, email: Option<string>, address: string)

  /** resetForm */
  const EmptyForm := CustomerForm("", "", "", "")

  /** handleEdit's `customer.email || ''` */
  function EmailField(email: Option<string>): string {
    email.GetOr("")
  }

  /** handleSubmit's `formData.email || null` */
  function SavedEmail(field: string): Option<string> {
    if field == "" then None else Some(field)
  }

  /** handleEdit */
  function EditForm(c: Customer): CustomerForm {
    CustomerForm(c.name, c.phone, EmailField(c.email), c.address)
  }

  /** handleSubmit */
  function CustomerDataOf(f: CustomerForm): CustomerData {
    CustomerData(f.name, f.phone, SavedEmail(f.email), f.address)
  }

  /** A missing email is shown as '' and '' is saved as missing; a non-empty
      email passes through unchanged. So opening a customer and saving without
      changes writes back the customer's own fields. */
  lemma {:induction false} EditThenSaveUnchanged(c: Customer)
    requires c.email != Some("")
    ensures CustomerDataOf(EditForm(c)) == CustomerData(c.name, c.phone, c.email, c.address)
    ensures c.email.None? ==> EditForm(c).email == "" && CustomerDataOf(EditForm(c)).email.None?
    ensures c.email.Some? ==> EditForm(c).email == c.email.value
  {
  }

  /** Saving and re-opening shows exactly what was typed */
  lemma {:induction false} SaveThenEdit(f: CustomerForm)
    ensures EmailField(CustomerDataOf(f).email) == f.email
  {
  }

  // ------------------------------------------------------- activity logging

  /** the action handleSubmit logs */
  function SaveAction(editing: bool): string {
    if editing then "update_customer" else "create_customer"
  }

  /** the action handleDelete logs */
  const DeleteAction := "delete_customer"
}
