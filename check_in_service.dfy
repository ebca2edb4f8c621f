/**
 * The check-in flow of the layered service: find or create the customer, find or
 * create the pet, reserve a space (a full inventory is answered with an apology),
 * price the stay, validate and store the booking, and return a confirmation.
 * `CheckInSpec` states the flow on a value of all the state it touches; the
 * `PetCheckInService.CheckIn` method is proved to perform exactly that.
 */
module CheckInService {
  import opened Wrappers
  import opened Text
  import opened CustomerModel
  import opened PetModel
  import opened BookingModel
  import opened CapacityInventory
  import opened CustomersMemory
  import opened PetsMemory
  import opened BookingsMemory
  import opened MemoryStore

  const NoSpots := "Sorry, we have no more spots available."
  const DefaultRatePerDay: map<string, int> := map["dog" := 45, "cat" := 35]
  const DefaultGroomingMenu: map<string, int> := map["bath" := 25, "full" := 55]

  /** `customerInput`: `{ name, phone, email }`. */
  datatype CustomerInput = CustomerInput(name: Option<string>, phone: Option<string>, email: Option<string>)

  /** `petInput`: `{ type, name, age }`. */
  datatype PetInput = PetInput(species: Option<string>, name: Option<string>, age: Option<int>)

  /** The argument of `checkIn`. */
  datatype CheckInRequest = CheckInRequest(customer: CustomerInput, pet: PetInput, daysStay: Option<int>, groomingOption: Option<string> := None)

  datatype Confirmation = Confirmation(bookingId: string, customer: string, pet: string, daysStay: nat, grooming: string, amountDue: nat)

  /**
   * What `checkIn` does with the caller: resolves `{ ok: true, confirmation }`,
   * resolves `{ ok: false, message }`, or rejects with the error a model threw.
   */
  datatype CheckInOutcome = Confirmed(confirmation: Confirmation) | Declined(message: string) | Threw(error: string)

  /** `after` keeps all of `before` in place and adds at most one element at its end. */
  ghost predicate AppendsAtMostOne<T>(before: seq<T>, after: seq<T>) {
    |before| <= |after| <= |before| + 1 && after[..|before|] == before
  }

  /** Everything `checkIn` reads or changes: the three stores and the inventory counters. */
  datatype World = World(customers: seq<CustomerDoc>, pets: seq<PetDoc>, bookings: seq<BookingDoc>, spaces: Counts)

  /** Step 1: the customer found by phone or email, else a new validated one stored under the next `_id`. */
  function CustomerStep(store: seq<CustomerDoc>, input: CustomerInput): (r: Result<(CustomerDoc, seq<CustomerDoc>)>)
    ensures r.Ok? ==> r.value.0 in r.value.1
    ensures r.Ok? ==> r.value.1 == store || r.value.1 == store + [r.value.0]
  {
    match FindOneByPhoneOrEmail(store, input.phone, input.email)
    case Some(doc) => Ok((doc, store))
    case None =>
      match NewCustomer(None, input.name, input.phone, input.email)
      case Err(e) => Err(e)
      case Ok(c) =>
        var doc := Doc(NatToString(|store| + 1), c);
        Ok((doc, store + [doc]))
  }

  /** Step 2: the owner's pet of that name, else a new validated pet owned by `ownerId`. */
  function PetStep(store: seq<PetDoc>, ownerId: string, input: PetInput): (r: Result<(PetDoc, seq<PetDoc>)>)
    ensures r.Ok? ==> r.value.0 in r.value.1
    ensures r.Ok? ==> r.value.1 == store || r.value.1 == store + [r.value.0]
    ensures r.Ok? && r.value.1 != store ==> KnownSpecies(r.value.0.body.species) && r.value.0.body.customerId == Some(ownerId)
  {
    match FindOneByOwnerAndName(store, Some(ownerId), input.name)
    case Some(doc) => Ok((doc, store))
    case None =>
      match NewPet(input.species, input.name, input.age, Some(ownerId))
      case Err(e) => Err(e)
      case Ok(p) =>
        var doc := Doc(NatToString(|store| + 1), p);
        Ok((doc, store + [doc]))
  }

  /** Step 4's add-on: a truthy option, priced from the menu and at 0 when the menu lacks it. */
  function GroomingFor(menu: map<string, int>, option: Option<string>): (r: Option<Grooming>)
    ensures r.Some? <==> Truthy(option)
    ensures r.Some? ==> r.value.kind == option.value
    ensures r.Some? && option.value in menu ==> r.value.price == menu[option.value]
    ensures r.Some? && option.value !in menu ==> r.value.price == 0
    ensures (forall k | k in menu :: menu[k] >= 0) && r.Some? ==> r.value.price >= 0
  {
    if Truthy(option) then Some(Grooming(option.value, if option.value in menu then menu[option.value] else 0))
    else None
  }

  /** `base + (grooming?.price ?? 0)`; `None` stands for NaN, the price of a type missing from the rate table. */
  function AmountDue(rates: map<string, int>, species: string, daysStay: Option<int>, grooming: Option<Grooming>): (r: Option<int>)
    ensures r.Some? <==> species in rates && daysStay.Some?
    ensures r.Some? && grooming.None? ==> r.value == rates[species] * daysStay.value
    ensures r.Some? && grooming.Some? ==> r.value - grooming.value.price == rates[species] * daysStay.value
    ensures r.Some? && rates[species] >= 0 && daysStay.value >= 0 && (grooming.Some? ==> grooming.value.price >= 0) ==> r.value >= 0
  {
    if species in rates && daysStay.Some? then Some(rates[species] * daysStay.value + (if grooming.Some? then grooming.value.price else 0))
    else None
  }

  /** Step 7: what the confirmation shows. */
  function ConfirmationOf(bookingDoc: BookingDoc, customerDoc: CustomerDoc, petDoc: PetDoc): (r: Confirmation)
    ensures r.bookingId == bookingDoc.docId && r.customer == customerDoc.body.name
    ensures r.pet == petDoc.body.name + " (" + petDoc.body.species + ")"
    ensures r.daysStay == bookingDoc.body.daysStay && r.amountDue == bookingDoc.body.amountDue
    ensures bookingDoc.body.grooming.None? ==> r.grooming == "none"
    ensures bookingDoc.body.grooming.Some? ==> r.grooming == bookingDoc.body.grooming.value.kind
  {
    var b := bookingDoc.body;
    Confirmation(bookingDoc.docId, customerDoc.body.name, petDoc.body.name + " (" + petDoc.body.species + ")",
                 b.daysStay, if b.grooming.Some? then b.grooming.value.kind else "none", b.amountDue)
  }

  /**
   * `checkIn(req)` on the state `w`: the state afterwards and the outcome. Nothing
   * is rolled back: a customer or pet created before a later step fails stays
   * stored, and a reserved space stays reserved when the booking is rejected.
   */
  function CheckInSpec(w: World, rates: map<string, int>, menu: map<string, int>, req: CheckInRequest): (r: (World, CheckInOutcome))
    ensures AppendsAtMostOne(w.customers, r.0.customers)
    ensures AppendsAtMostOne(w.pets, r.0.pets)
    ensures AppendsAtMostOne(w.bookings, r.0.bookings)
    ensures r.1.Declined? ==> r.1.message == NoSpots && r.0.spaces == w.spaces && r.0.bookings == w.bookings
    ensures r.1.Confirmed? ==> |r.0.bookings| == |w.bookings| + 1
  {
    match CustomerStep(w.customers, req.customer)
    case Err(e) => (w, Threw(e))
    case Ok((customerDoc, customers)) => PetStage(w.(customers := customers), customerDoc, rates, menu, req)
  }

  /** Steps 2 to 7, once the customer is known; they leave the customer store alone. */
  function PetStage(w: World, customerDoc: CustomerDoc, rates: map<string, int>, menu: map<string, int>, req: CheckInRequest): (r: (World, CheckInOutcome))
    ensures r.0.customers == w.customers
    ensures AppendsAtMostOne(w.pets, r.0.pets)
    ensures AppendsAtMostOne(w.bookings, r.0.bookings)
  {
    match PetStep(w.pets, customerDoc.docId, req.pet)
    case Err(e) => (w, Threw(e))
    case Ok((petDoc, pets)) => ReserveStage(w.(pets := pets), customerDoc, petDoc, rates, menu, req)
  }

  /** Step 3 and what follows it, once the pet is known; they leave both stores of people and pets alone. */
  function ReserveStage(w: World, customerDoc: CustomerDoc, petDoc: PetDoc, rates: map<string, int>, menu: map<string, int>, req: CheckInRequest): (r: (World, CheckInOutcome))
    ensures r.0.customers == w.customers && r.0.pets == w.pets
    ensures r.1.Declined? <==> Available(w.spaces, petDoc.body.species) < 1
    ensures r.1.Declined? ==> r == (w, Declined(NoSpots))
    ensures !r.1.Declined? ==> r.0.spaces == ReserveCounts(w.spaces, petDoc.body.species).value
    ensures AppendsAtMostOne(w.bookings, r.0.bookings)
  {
    match ReserveCounts(w.spaces, petDoc.body.species)
    case Err(_) => (w, Declined(NoSpots))
    case Ok(spaces) => BookStage(w.(spaces := spaces), customerDoc, petDoc, rates, menu, req)
  }

  /** Steps 4 and 5: the grooming add-on, the price and the validated booking record. */
  function BookingFor(customerDoc: CustomerDoc, petDoc: PetDoc, rates: map<string, int>, menu: map<string, int>, req: CheckInRequest): (r: Result<Booking>)
    ensures req.daysStay.None? || req.daysStay.value <= 0 ==> r == Err(BadDays)
    ensures req.daysStay.Some? && req.daysStay.value > 0 && petDoc.body.species !in rates ==> r == Err(BadAmount)
    ensures r.Ok? ==>
              && r.value.pet == PetSnapshot(petDoc.docId, petDoc.body.species, petDoc.body.name)
              && r.value.customer == CustomerSnapshot(customerDoc.docId, customerDoc.body.name)
              && req.daysStay == Some(r.value.daysStay) && r.value.daysStay >= 1
              && r.value.grooming == GroomingFor(menu, req.groomingOption)
              && AmountDue(rates, petDoc.body.species, req.daysStay, r.value.grooming) == Some(r.value.amountDue)
    ensures (req.daysStay.Some? && req.daysStay.value > 0 && petDoc.body.species in rates && rates[petDoc.body.species] >= 0
             && (forall k | k in menu :: menu[k] >= 0)) ==> r.Ok?
  {
    var grooming := GroomingFor(menu, req.groomingOption);
    NewBooking(Some(PetSnapshot(petDoc.docId, petDoc.body.species, petDoc.body.name)),
               Some(CustomerSnapshot(customerDoc.docId, customerDoc.body.name)),
               req.daysStay, grooming,
               AmountDue(rates, petDoc.body.species, req.daysStay, grooming))
  }

  /** Steps 4 to 7, once the space is held: only the booking store can change, by one document. */
  function BookStage(w: World, customerDoc: CustomerDoc, petDoc: PetDoc, rates: map<string, int>, menu: map<string, int>, req: CheckInRequest): (r: (World, CheckInOutcome))
    ensures r.0.customers == w.customers && r.0.pets == w.pets && r.0.spaces == w.spaces
    ensures !r.1.Declined?
    ensures r.1.Threw? ==> r.0 == w && (r.1.error == BadDays || r.1.error == BadAmount)
    ensures AppendsAtMostOne(w.bookings, r.0.bookings)
    ensures r.1.Confirmed? ==> |r.0.bookings| == |w.bookings| + 1
    ensures r.1.Confirmed? ==>
              var doc := r.0.bookings[|w.bookings|];
              && r.0.bookings == w.bookings + [doc]
              && doc.docId == NatToString(|w.bookings| + 1)
              && r.1.confirmation == ConfirmationOf(doc, customerDoc, petDoc)
              && doc.body.pet == PetSnapshot(petDoc.docId, petDoc.body.species, petDoc.body.name)
              && doc.body.customer == CustomerSnapshot(customerDoc.docId, customerDoc.body.name)
              && req.daysStay == Some(doc.body.daysStay) && doc.body.daysStay >= 1
              && doc.body.grooming == GroomingFor(menu, req.groomingOption)
              && AmountDue(rates, petDoc.body.species, req.daysStay, doc.body.grooming) == Some(doc.body.amountDue)
  {
    match BookingFor(customerDoc, petDoc, rates, menu, req)
    case Err(e) => (w, Threw(e))
    case Ok(b) =>
      var bookingDoc := Doc(NatToString(|w.bookings| + 1), b);
      (w.(bookings := w.bookings + [bookingDoc]), Confirmed(ConfirmationOf(bookingDoc, customerDoc, petDoc)))
  }

  // ---------------------------------------------------------------------------
  // Properties of the flow
  // ---------------------------------------------------------------------------

  /**
   * Step 1 reuses a customer whose phone or email matches and otherwise stores
   * exactly one new, validated customer; a rejected name changes nothing.
   */
  lemma CheckInFindsOrCreatesCustomer(w: World, rates: map<string, int>, menu: map<string, int>, req: CheckInRequest)
    ensures var (w', out) := CheckInSpec(w, rates, menu, req);
            var c := req.customer;
            var found := FindOneByPhoneOrEmail(w.customers, c.phone, c.email);
            var made := NewCustomer(None, c.name, c.phone, c.email);
            && (found.Some? ==> w'.customers == w.customers)
            && (found.None? && made.Ok? ==>
                  w'.customers == w.customers + [Doc(NatToString(|w.customers| + 1), made.value)])
            && (found.None? && made.Err? ==> w' == w && out == Threw(CustomerNameRequired))
  {
  }

  /**
   * Step 2 reuses the owner's pet of the requested name and otherwise stores one
   * new validated pet whose owner is the customer of step 1.
   */
  lemma CheckInFindsOrCreatesPet(w: World, rates: map<string, int>, menu: map<string, int>, req: CheckInRequest)
    requires CustomerStep(w.customers, req.customer).Ok?
    ensures var (w', out) := CheckInSpec(w, rates, menu, req);
            var owner := CustomerStep(w.customers, req.customer).value.0;
            var found := FindOneByOwnerAndName(w.pets, Some(owner.docId), req.pet.name);
            var made := NewPet(req.pet.species, req.pet.name, req.pet.age, Some(owner.docId));
            && (found.Some? ==> w'.pets == w.pets)
            && (found.None? && made.Ok? ==>
                  w'.pets == w.pets + [Doc(NatToString(|w.pets| + 1), made.value)] && made.value.customerId == Some(owner.docId))
            && (found.None? && made.Err? ==> out == Threw(made.error) && w'.pets == w.pets && w'.spaces == w.spaces)
  {
  }

  /** The stores only grow: a check-in never removes or rewrites a stored customer, pet or booking. */
  lemma CheckInOnlyAppends(w: World, rates: map<string, int>, menu: map<string, int>, req: CheckInRequest)
    ensures var w' := CheckInSpec(w, rates, menu, req).0;
            && AppendsAtMostOne(w.customers, w'.customers)
            && AppendsAtMostOne(w.pets, w'.pets)
            && AppendsAtMostOne(w.bookings, w'.bookings)
  {
    match CustomerStep(w.customers, req.customer)
    case Err(_) =>
    case Ok((customerDoc, customers)) =>
      assert customers[..|w.customers|] == w.customers;
  }

  /**
   * No space for the pet's type: the caller is told so, no booking is stored and
   * the counters are untouched; a customer or pet created on the way stays.
   */
  lemma NoSpaceDeclines(w: World, rates: map<string, int>, menu: map<string, int>, req: CheckInRequest)
    ensures var (w', out) := CheckInSpec(w, rates, menu, req);
            out.Declined? ==> out.message == NoSpots && w'.bookings == w.bookings && w'.spaces == w.spaces
    ensures var (w', out) := CheckInSpec(w, rates, menu, req);
            out.Declined? <==>
              && CustomerStep(w.customers, req.customer).Ok?
              && var owner := CustomerStep(w.customers, req.customer).value.0;
              && PetStep(w.pets, owner.docId, req.pet).Ok?
              && Available(w.spaces, PetStep(w.pets, owner.docId, req.pet).value.0.body.species) < 1
  {
  }

  /**
   * A confirmed check-in stores exactly one booking, under the next `_id`, takes
   * exactly one space of the pet's type, and confirms what was stored: the days,
   * the grooming type or `"none"`, and the price `rate × days + grooming price`,
   * the grooming price being 0 for an option the menu does not list.
   */
  lemma ConfirmedBooksOnce(w: World, rates: map<string, int>, menu: map<string, int>, req: CheckInRequest)
    requires CheckInSpec(w, rates, menu, req).1.Confirmed?
    ensures var (w', out) := CheckInSpec(w, rates, menu, req);
            var doc := w'.bookings[|w.bookings|];
            var b := doc.body;
            var c := out.confirmation;
            && |w'.bookings| == |w.bookings| + 1 && w'.bookings[..|w.bookings|] == w.bookings
            && doc.docId == NatToString(|w.bookings| + 1) == c.bookingId
            && Available(w'.spaces, b.pet.species) == Available(w.spaces, b.pet.species) - 1
            && Untouched(w'.spaces, b.pet.species) == Untouched(w.spaces, b.pet.species)
            && req.daysStay == Some(b.daysStay) && b.daysStay >= 1 && c.daysStay == b.daysStay
            && c.grooming == (if Truthy(req.groomingOption) then req.groomingOption.value else "none")
            && b.pet.species in rates
            && c.amountDue == b.amountDue
               == rates[b.pet.species] * b.daysStay
                  + (if Truthy(req.groomingOption) && req.groomingOption.value in menu then menu[req.groomingOption.value] else 0)
  {
  }

  /**
   * A check-in that throws stores no booking; when it throws after the space was
   * reserved (the booking itself was rejected), that space is not given back.
   */
  lemma ThrowStoresNoBooking(w: World, rates: map<string, int>, menu: map<string, int>, req: CheckInRequest)
    ensures var (w', out) := CheckInSpec(w, rates, menu, req);
            out.Threw? ==> w'.bookings == w.bookings
    ensures var (w', out) := CheckInSpec(w, rates, menu, req);
            out.Threw? && w'.spaces != w.spaces ==>
              && (out.error == BadDays || out.error == BadAmount)
              && w'.spaces.dog + w'.spaces.cat == w.spaces.dog + w.spaces.cat - 1
  {
    match CustomerStep(w.customers, req.customer)
    case Err(_) =>
    case Ok((customerDoc, customers)) =>
      var w1 := w.(customers := customers);
      match PetStep(w1.pets, customerDoc.docId, req.pet)
      case Err(_) =>
      case Ok((petDoc, pets)) =>
        var w2 := w1.(pets := pets);
        match ReserveCounts(w2.spaces, petDoc.body.species)
        case Err(_) =>
        case Ok(spaces) =>
          assert CheckInSpec(w, rates, menu, req) == BookStage(w2.(spaces := spaces), customerDoc, petDoc, rates, menu, req);
  }

  /**
   * A stay that is missing, not a whole number or shorter than one day is rejected
   * only after its space was reserved, and keeps it.
   */
  lemma InvalidStayLeaksSpace(w: World, rates: map<string, int>, menu: map<string, int>, req: CheckInRequest)
    requires CustomerStep(w.customers, req.customer).Ok?
    requires PetStep(w.pets, CustomerStep(w.customers, req.customer).value.0.docId, req.pet).Ok?
    requires Available(w.spaces, PetStep(w.pets, CustomerStep(w.customers, req.customer).value.0.docId, req.pet).value.0.body.species) >= 1
    requires req.daysStay.None? || req.daysStay.value <= 0
    ensures var (w', out) := CheckInSpec(w, rates, menu, req);
            out == Threw(BadDays) && w'.bookings == w.bookings
            && w'.spaces.dog + w'.spaces.cat == w.spaces.dog + w.spaces.cat - 1
  {
  }

  // ---------------------------------------------------------------------------
  // An invariant of the stores
  // ---------------------------------------------------------------------------

  /**
   * Every stored pet has a known type and a stored owner, every booking refers to a
   * stored pet and a stored customer, and the counters are non-negative.
   */
  ghost predicate Consistent(w: World) {
    && NonNegative(w.spaces)
    && (forall i :: 0 <= i < |w.pets| ==> KnownSpecies(w.pets[i].body.species))
    && (forall i :: 0 <= i < |w.pets| ==>
          w.pets[i].body.customerId.Some? && w.pets[i].body.customerId.value in DocIds(w.customers))
    && (forall i :: 0 <= i < |w.bookings| ==>
          && w.bookings[i].body.pet.id in DocIds(w.pets)
          && w.bookings[i].body.customer.id in DocIds(w.customers))
  }

  lemma CustomerStepKeepsIds(store: seq<CustomerDoc>, input: CustomerInput)
    requires CustomerStep(store, input).Ok?
    ensures var (doc, store') := CustomerStep(store, input).value;
            doc.docId in DocIds(store')
            && forall id :: id in DocIds(store) ==> id in DocIds(store')
  {
    var (doc, store') := CustomerStep(store, input).value;
    var ids, ids' := DocIds(store), DocIds(store');
    if store' == store {
      var k :| 0 <= k < |store'| && store'[k] == doc;
      assert ids'[k] == doc.docId;
    } else {
      assert ids'[|store|] == doc.docId;
      forall id | id in ids ensures id in ids' {
        var k :| 0 <= k < |ids| && ids[k] == id;
        assert ids'[k] == id;
      }
    }
  }

  lemma PetStepKeepsIds(store: seq<PetDoc>, ownerId: string, input: PetInput)
    requires PetStep(store, ownerId, input).Ok?
    ensures var (doc, store') := PetStep(store, ownerId, input).value;
            doc.docId in DocIds(store')
            && forall id :: id in DocIds(store) ==> id in DocIds(store')
  {
    var (doc, store') := PetStep(store, ownerId, input).value;
    var ids, ids' := DocIds(store), DocIds(store');
    if store' == store {
      var k :| 0 <= k < |store'| && store'[k] == doc;
      assert ids'[k] == doc.docId;
    } else {
      assert ids'[|store|] == doc.docId;
      forall id | id in ids ensures id in ids' {
        var k :| 0 <= k < |ids| && ids[k] == id;
        assert ids'[k] == id;
      }
    }
  }

  lemma ConsistentWithMoreCustomers(w: World, customers: seq<CustomerDoc>)
    requires Consistent(w)
    requires forall id :: id in DocIds(w.customers) ==> id in DocIds(customers)
    ensures Consistent(w.(customers := customers))
  {
  }

  lemma ConsistentWithPetStep(w: World, ownerId: string, input: PetInput)
    requires Consistent(w) && ownerId in DocIds(w.customers)
    requires PetStep(w.pets, ownerId, input).Ok?
    ensures var (petDoc, pets) := PetStep(w.pets, ownerId, input).value;
            Consistent(w.(pets := pets)) && petDoc.docId in DocIds(pets)
  {
    var (petDoc, pets) := PetStep(w.pets, ownerId, input).value;
    PetStepKeepsIds(w.pets, ownerId, input);
    if pets != w.pets {
      var w' := w.(pets := pets);
      assert pets == w.pets + [petDoc];
      forall i | 0 <= i < |pets|
        ensures KnownSpecies(pets[i].body.species)
        ensures pets[i].body.customerId.Some? && pets[i].body.customerId.value in DocIds(w.customers)
      {
        if i < |w.pets| {
          assert pets[i] == w.pets[i];
        } else {
          assert pets[i] == petDoc;
        }
      }
      forall i | 0 <= i < |w.bookings|
        ensures w.bookings[i].body.pet.id in DocIds(pets)
      {
        assert w.bookings[i].body.pet.id in DocIds(w.pets);
      }
      assert Consistent(w');
    }
  }

  lemma ConsistentWithBookStage(w: World, customerDoc: CustomerDoc, petDoc: PetDoc, rates: map<string, int>, menu: map<string, int>, req: CheckInRequest)
    requires Consistent(w)
    requires customerDoc.docId in DocIds(w.customers) && petDoc.docId in DocIds(w.pets)
    ensures Consistent(BookStage(w, customerDoc, petDoc, rates, menu, req).0)
  {
    var r := BookStage(w, customerDoc, petDoc, rates, menu, req);
    if r.1.Confirmed? {
      assert forall i :: 0 <= i < |w.bookings| ==> r.0.bookings[i] == w.bookings[i];
    }
  }

  lemma ConsistentWithReserveStage(w: World, customerDoc: CustomerDoc, petDoc: PetDoc, rates: map<string, int>, menu: map<string, int>, req: CheckInRequest)
    requires Consistent(w)
    requires customerDoc.docId in DocIds(w.customers) && petDoc.docId in DocIds(w.pets)
    ensures Consistent(ReserveStage(w, customerDoc, petDoc, rates, menu, req).0)
  {
    match ReserveCounts(w.spaces, petDoc.body.species)
    case Err(_) =>
    case Ok(spaces) =>
      ConsistentWithBookStage(w.(spaces := spaces), customerDoc, petDoc, rates, menu, req);
  }

  lemma ConsistentWithPetStage(w: World, customerDoc: CustomerDoc, rates: map<string, int>, menu: map<string, int>, req: CheckInRequest)
    requires Consistent(w) && customerDoc.docId in DocIds(w.customers)
    ensures Consistent(PetStage(w, customerDoc, rates, menu, req).0)
  {
    match PetStep(w.pets, customerDoc.docId, req.pet)
    case Err(_) =>
    case Ok((petDoc, pets)) =>
      ConsistentWithPetStep(w, customerDoc.docId, req.pet);
      ConsistentWithReserveStage(w.(pets := pets), customerDoc, petDoc, rates, menu, req);
  }

  /** Every check-in, whatever its outcome, keeps the stores consistent. */
  lemma CheckInKeepsConsistent(w: World, rates: map<string, int>, menu: map<string, int>, req: CheckInRequest)
    requires Consistent(w)
    ensures Consistent(CheckInSpec(w, rates, menu, req).0)
  {
    match CustomerStep(w.customers, req.customer)
    case Err(_) =>
    case Ok((customerDoc, customers)) =>
      CustomerStepKeepsIds(w.customers, req.customer);
      ConsistentWithMoreCustomers(w, customers);
      ConsistentWithPetStage(w.(customers := customers), customerDoc, rates, menu, req);
  }

  // ---------------------------------------------------------------------------
  // The service object
  // ---------------------------------------------------------------------------

  /** `PetCheckInService`: the injected inventory, price tables and repositories. */
  class PetCheckInService {
    const inventory: Inventory
    const ratePerDay: map<string, int>
    const groomingMenu: map<string, int>
    const customers: CustomersRepo
    const pets: PetsRepo
    const bookings: BookingsRepo

    ghost predicate Valid()
      reads inventory, customers, pets, bookings
    {
      inventory.Valid() && customers.Valid() && pets.Valid() && bookings.Valid()
    }

    /** The state `checkIn` works on, as a value. */
    ghost function State(): World
      reads inventory, customers, pets, bookings
    {
      World(customers.store, pets.store, bookings.store, inventory.State())
    }

    constructor (inventory: Inventory, ratePerDay: map<string, int>, groomingMenu: map<string, int>,
                 customers: CustomersRepo, pets: PetsRepo, bookings: BookingsRepo)
      ensures this.inventory == inventory && this.ratePerDay == ratePerDay && this.groomingMenu == groomingMenu
      ensures this.customers == customers && this.pets == pets && this.bookings == bookings
    {
      this.inventory := inventory;
      this.ratePerDay := ratePerDay;
      this.groomingMenu := groomingMenu;
      this.customers := customers;
      this.pets := pets;
      this.bookings := bookings;
    }

    /** The constructor's defaults: 30 dog and 12 cat spaces, 45/35 per day, bath 25 and full 55. */
    static method WithDefaults(customers: CustomersRepo, pets: PetsRepo, bookings: BookingsRepo) returns (s: PetCheckInService)
      ensures fresh(s) && fresh(s.inventory)
      ensures s.inventory.Valid() && s.inventory.State() == Counts(DefaultDogSpaces, DefaultCatSpaces)
      ensures s.ratePerDay == DefaultRatePerDay && s.groomingMenu == DefaultGroomingMenu
      ensures s.customers == customers && s.pets == pets && s.bookings == bookings
    {
      var inventory := new Inventory();
      s := new PetCheckInService(inventory, DefaultRatePerDay, DefaultGroomingMenu, customers, pets, bookings);
    }

    /** Step 1: the matching customer, or a new validated customer created in the repository. */
    method FindOrCreateCustomer(input: CustomerInput) returns (r: Result<CustomerDoc>)
      requires customers.Valid()
      modifies customers
      ensures customers.Valid()
      ensures var step := CustomerStep(old(customers.store), input);
              && (step.Err? ==> r == Err(step.error) && customers.store == old(customers.store))
              && (step.Ok? ==> r == Ok(step.value.0) && customers.store == step.value.1)
    {
      var found := FindOneByPhoneOrEmail(customers.store, input.phone, input.email);
      if found.Some? {
        return Ok(found.value);
      }
      var customer := NewCustomer(None, input.name, input.phone, input.email);
      if customer.Err? {
        return Err(customer.error);
      }
      var doc := customers.Create(customer.value);
      return Ok(doc);
    }

    /** Step 2: the owner's pet of that name, or a new validated pet created in the repository. */
    method FindOrCreatePet(ownerId: string, input: PetInput) returns (r: Result<PetDoc>)
      requires pets.Valid()
      modifies pets
      ensures pets.Valid()
      ensures var step := PetStep(old(pets.store), ownerId, input);
              && (step.Err? ==> r == Err(step.error) && pets.store == old(pets.store))
              && (step.Ok? ==> r == Ok(step.value.0) && pets.store == step.value.1)
    {
      var found := FindOneByOwnerAndName(pets.store, Some(ownerId), input.name);
      if found.Some? {
        return Ok(found.value);
      }
      var pet := NewPet(input.species, input.name, input.age, Some(ownerId));
      if pet.Err? {
        return Err(pet.error);
      }
      var doc := pets.Create(pet.value);
      return Ok(doc);
    }

    /** Steps 4 to 7: price, validate and store the booking, then confirm it. */
    method Book(customerDoc: CustomerDoc, petDoc: PetDoc, req: CheckInRequest) returns (r: CheckInOutcome)
      requires bookings.Valid()
      modifies bookings
      ensures bookings.Valid()
      ensures var booking := BookingFor(customerDoc, petDoc, ratePerDay, groomingMenu, req);
              && (booking.Err? ==> r == Threw(booking.error) && bookings.store == old(bookings.store))
              && (booking.Ok? ==>
                    var doc := Doc(NatToString(|old(bookings.store)| + 1), booking.value);
                    r == Confirmed(ConfirmationOf(doc, customerDoc, petDoc)) && bookings.store == old(bookings.store) + [doc])
    {
      var booking := BookingFor(customerDoc, petDoc, ratePerDay, groomingMenu, req);
      if booking.Err? {
        return Threw(booking.error);
      }
      var bookingDoc := bookings.Create(booking.value);
      return Confirmed(ConfirmationOf(bookingDoc, customerDoc, petDoc));
    }

    /** `checkIn(req)`: performs the flow `CheckInSpec` describes on the objects it holds. */
    method CheckIn(req: CheckInRequest) returns (r: CheckInOutcome)
      requires Valid()
      modifies inventory, customers, pets, bookings
      ensures Valid()
      ensures (State(), r) == CheckInSpec(old(State()), ratePerDay, groomingMenu, req)
    {
      ghost var w := State();
      var customerDoc := FindOrCreateCustomer(req.customer);
      if customerDoc.Err? {
        return Threw(customerDoc.error);
      }
      ghost var w1 := State();
      assert CheckInSpec(w, ratePerDay, groomingMenu, req) == PetStage(w1, customerDoc.value, ratePerDay, groomingMenu, req);
      var petDoc := FindOrCreatePet(customerDoc.value.docId, req.pet);
      if petDoc.Err? {
        return Threw(petDoc.error);
      }
      ghost var w2 := State();
      assert PetStage(w1, customerDoc.value, ratePerDay, groomingMenu, req)
          == ReserveStage(w2, customerDoc.value, petDoc.value, ratePerDay, groomingMenu, req);
      var reserved := inventory.Reserve(petDoc.value.body.species);
      if reserved.Fail? {
        return Declined(NoSpots);
      }
      ghost var w3 := State();
      assert ReserveStage(w2, customerDoc.value, petDoc.value, ratePerDay, groomingMenu, req)
          == BookStage(w3, customerDoc.value, petDoc.value, ratePerDay, groomingMenu, req);
      r := Book(customerDoc.value, petDoc.value, req);
    }
  }
}
