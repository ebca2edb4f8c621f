/**
 * The in-memory customer store: an append-only list of documents whose `_id`s
 * come from a counter starting at 1, and a lookup by phone or email.
 */
module CustomersMemory {
  import opened Wrappers
  import opened Text
  import opened MemoryStore
  import opened Seqs
  import opened CustomerModel

  /** A stored customer: its `_id` and the customer's own fields. */
  type CustomerDoc = Doc<Customer>

  /** The filter of `findOneByPhoneOrEmail`: a truthy phone equal to the stored one, or a truthy email equal to the stored one. */
  predicate PhoneOrEmailMatch(phone: Option<string>, email: Option<string>, d: CustomerDoc) {
    (Truthy(phone) && d.body.phone == phone) || (Truthy(email) && d.body.email == email)
  }

  /** `findOneByPhoneOrEmail(phone, email)` over the stored documents: the first match, `None` for null. */
  function FindOneByPhoneOrEmail(store: seq<CustomerDoc>, phone: Option<string>, email: Option<string>): (r: Option<CustomerDoc>)
    ensures r.None? <==> forall i :: 0 <= i < |store| ==> !PhoneOrEmailMatch(phone, email, store[i])
    ensures r.Some? ==> r.value in store && PhoneOrEmailMatch(phone, email, r.value)
    ensures r.Some? ==> exists i :: 0 <= i < |store| && store[i] == r.value && forall j :: 0 <= j < i ==> !PhoneOrEmailMatch(phone, email, store[j])
    ensures !Truthy(phone) && !Truthy(email) ==> r.None?
  {
    Find(store, d => PhoneOrEmailMatch(phone, email, d))
  }

  /**
   * After a document is appended, a lookup it matches finds the earlier match
   * if there was one and the new document otherwise.
   */
  lemma CreatedCustomerIsFound(store: seq<CustomerDoc>, doc: CustomerDoc, phone: Option<string>, email: Option<string>)
    requires PhoneOrEmailMatch(phone, email, doc)
    ensures var before := FindOneByPhoneOrEmail(store, phone, email);
            FindOneByPhoneOrEmail(store + [doc], phone, email) == if before.Some? then before else Some(doc)
  {
    FindAppend(store, doc, d => PhoneOrEmailMatch(phone, email, d));
  }

  /** The factory's closure over its list and counter. */
  type CustomersRepo = Repo<Customer>
}
