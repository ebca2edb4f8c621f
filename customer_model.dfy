/** The customer value object: a required, trimmed name and optional contact fields. */
module CustomerModel {
  import opened Wrappers
  import opened Text

  const CustomerNameRequired := "customer name required"

  datatype Customer = Customer(id: Option<string>, name: string, phone: Option<string>, email: Option<string>)

  /**
   * `new Customer({id, name, phone, email})`: throws unless the name has a
   * non-space character; stores the trimmed name and the other fields as given.
   */
  function NewCustomer(id: Option<string> := None, name: Option<string>, phone: Option<string> := None, email: Option<string> := None): (r: Result<Customer>)
    ensures r.Err? <==> name.None? || AllSpace(name.value)
    ensures r.Err? ==> r.error == CustomerNameRequired
    ensures r.Ok? ==> r.value.name == Trim(name.value) && r.value.name != [] && Trimmed(r.value.name)
    ensures r.Ok? ==> r.value.id == id && r.value.phone == phone && r.value.email == email
  {
    if !Truthy(name) || Trim(name.value) == [] then Err(CustomerNameRequired)
    else Ok(Customer(id, Trim(name.value), phone, email))
  }

  /** Only the trimmed name matters: two names that trim alike build the same customer. */
  lemma NewCustomerSameTrim(id: Option<string>, a: string, b: string, phone: Option<string>, email: Option<string>)
    requires Trim(a) == Trim(b)
    ensures NewCustomer(id, Some(a), phone, email) == NewCustomer(id, Some(b), phone, email)
  {
    var t := Trim(a);
    if t == [] {
      assert NewCustomer(id, Some(a), phone, email) == Err(CustomerNameRequired);
      assert NewCustomer(id, Some(b), phone, email) == Err(CustomerNameRequired);
    } else {
      assert a != [] && b != [];
      assert NewCustomer(id, Some(a), phone, email) == Ok(Customer(id, t, phone, email));
      assert NewCustomer(id, Some(b), phone, email) == Ok(Customer(id, t, phone, email));
    }
  }

  /** Padding the name with white space changes nothing about the customer built. */
  lemma NewCustomerIgnoresPadding(id: Option<string>, pre: string, name: string, post: string, phone: Option<string>, email: Option<string>)
    requires AllSpace(pre) && AllSpace(post)
    requires Trimmed(name)
    ensures NewCustomer(id, Some(pre + name + post), phone, email) == NewCustomer(id, Some(name), phone, email)
  {
    TrimPadded(pre, name, post);
    TrimOfTrimmed(name);
    NewCustomerSameTrim(id, pre + name + post, name, phone, email);
  }

  /** Rebuilding a customer from its own fields gives the same customer. */
  lemma NewCustomerIdempotent(id: Option<string>, name: Option<string>, phone: Option<string>, email: Option<string>)
    requires NewCustomer(id, name, phone, email).Ok?
    ensures var c := NewCustomer(id, name, phone, email).value;
            NewCustomer(c.id, Some(c.name), c.phone, c.email) == Ok(c)
  {
    TrimIdempotent(name.value);
  }
}
