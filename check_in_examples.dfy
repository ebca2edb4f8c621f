/**
 * A worked check-in on empty stores with the service's defaults: customer
 * " Sam " (phone 555-0100) brings a new "Dog" named "Rex", aged 3, for 3 days
 * with a bath, and is charged 45 × 3 + 25.
 */
module CheckInExamples {
  import opened Wrappers
  import opened Text
  import opened CustomerModel
  import opened PetModel
  import opened BookingModel
  import opened CapacityInventory
  import opened CustomersMemory
  import opened PetsMemory
  import opened MemoryStore
  import opened CheckInService

  const Sam := Customer(None, "Sam", Some("555-0100"), None)
  const SamDoc := Doc("1", Sam)
  const Rex := Pet("dog", "Rex", 3, Some("1"))
  const RexDoc := Doc("1", Rex)
  const SamInput := CustomerInput(Some(" Sam "), Some("555-0100"), None)
  const RexInput := PetInput(Some("Dog"), Some("Rex"), Some(3))
  const Request := CheckInRequest(SamInput, RexInput, Some(3), Some("bath"))

  lemma FirstId()
    ensures NatToString(1) == "1"
  {
  }

  lemma SamIsValid()
    ensures NewCustomer(None, SamInput.name, SamInput.phone, SamInput.email) == Ok(Sam)
  {
    assert " Sam " == " " + "Sam" + " ";
    TrimPadded(" ", "Sam", " ");
  }

  /** On an empty store, a customer whose input validates is stored under `_id` "1". */
  lemma CustomerStepOnEmpty(input: CustomerInput, c: Customer)
    requires NewCustomer(None, input.name, input.phone, input.email) == Ok(c)
    ensures CustomerStep([], input) == Ok((Doc("1", c), [Doc("1", c)]))
  {
    FirstId();
    assert FindOneByPhoneOrEmail([], input.phone, input.email) == None;
    assert [] + [Doc("1", c)] == [Doc("1", c)];
  }

  /** Step 1: nobody has that phone yet, so "Sam" is stored under `_id` "1". */
  lemma FirstCustomerStep()
    ensures CustomerStep([], SamInput) == Ok((SamDoc, [SamDoc]))
  {
    SamIsValid();
    CustomerStepOnEmpty(SamInput, Sam);
  }

  lemma DogLowered()
    ensures ToLower("Dog") == "dog"
  {
    var l := ToLower("Dog");
    assert l[0] == 'd' && l[1] == 'o' && l[2] == 'g';
  }

  lemma DogIsValid()
    ensures ValidateType(Some("Dog")) == Ok("dog")
  {
    assert "Dog" == [] + "Dog" + [];
    DogLowered();
    ValidateTypeIgnoresPaddingAndCase([], "Dog", []);
  }

  lemma RexNameIsValid()
    ensures ValidateName(Some("Rex")) == Ok("Rex")
  {
    assert "Rex" == [] + "Rex" + [];
    ValidateNameIgnoresPadding([], "Rex", []);
  }

  lemma RexIsValid()
    ensures NewPet(RexInput.species, RexInput.name, RexInput.age, Some("1")) == Ok(Rex)
  {
    DogIsValid();
    RexNameIsValid();
    assert ValidateAge(Some(3)) == Ok(3);
  }

  /** On an empty store, a pet whose input validates is stored under `_id` "1". */
  lemma PetStepOnEmpty(ownerId: string, input: PetInput, p: Pet)
    requires NewPet(input.species, input.name, input.age, Some(ownerId)) == Ok(p)
    ensures PetStep([], ownerId, input) == Ok((Doc("1", p), [Doc("1", p)]))
  {
    FirstId();
    assert FindOneByOwnerAndName([], Some(ownerId), input.name) == None;
    assert [] + [Doc("1", p)] == [Doc("1", p)];
  }

  /** Step 2: the new customer owns no pet yet, so "Rex" is stored under `_id` "1". */
  lemma FirstPetStep()
    ensures PetStep([], "1", RexInput) == Ok((RexDoc, [RexDoc]))
  {
    RexIsValid();
    PetStepOnEmpty("1", RexInput, Rex);
  }

  /** Steps 4 and 5: 3 days at 45 with a bath at 25 come to 160. */
  lemma FirstBooking()
    ensures BookingFor(SamDoc, RexDoc, DefaultRatePerDay, DefaultGroomingMenu, Request)
            == Ok(Booking(PetSnapshot("1", "dog", "Rex"), CustomerSnapshot("1", "Sam"), 3, Some(Grooming("bath", 25)), 160))
  {
    assert GroomingFor(DefaultGroomingMenu, Some("bath")) == Some(Grooming("bath", 25));
    assert AmountDue(DefaultRatePerDay, "dog", Some(3), Some(Grooming("bath", 25))) == Some(160);
  }

  const Empty := World([], [], [], Counts(DefaultDogSpaces, DefaultCatSpaces))
  const AfterCustomer := World([SamDoc], [], [], Counts(DefaultDogSpaces, DefaultCatSpaces))
  const AfterPet := World([SamDoc], [RexDoc], [], Counts(DefaultDogSpaces, DefaultCatSpaces))
  const AfterReserve := World([SamDoc], [RexDoc], [], Counts(29, 12))

  lemma FirstThroughPet()
    ensures CheckInSpec(Empty, DefaultRatePerDay, DefaultGroomingMenu, Request)
            == ReserveStage(AfterPet, SamDoc, RexDoc, DefaultRatePerDay, DefaultGroomingMenu, Request)
  {
    FirstCustomerStep();
    assert CheckInSpec(Empty, DefaultRatePerDay, DefaultGroomingMenu, Request)
        == PetStage(AfterCustomer, SamDoc, DefaultRatePerDay, DefaultGroomingMenu, Request);
    FirstPetStep();
  }

  lemma FirstReserve()
    ensures ReserveStage(AfterPet, SamDoc, RexDoc, DefaultRatePerDay, DefaultGroomingMenu, Request)
            == BookStage(AfterReserve, SamDoc, RexDoc, DefaultRatePerDay, DefaultGroomingMenu, Request)
  {
  }

  lemma FirstBookStage()
    ensures BookStage(AfterReserve, SamDoc, RexDoc, DefaultRatePerDay, DefaultGroomingMenu, Request)
            == (AfterReserve.(bookings := [Doc("1", Booking(PetSnapshot("1", "dog", "Rex"), CustomerSnapshot("1", "Sam"), 3, Some(Grooming("bath", 25)), 160))]),
                Confirmed(Confirmation("1", "Sam", "Rex (dog)", 3, "bath", 160)))
  {
    FirstBooking();
    FirstId();
    var doc := Doc("1", Booking(PetSnapshot("1", "dog", "Rex"), CustomerSnapshot("1", "Sam"), 3, Some(Grooming("bath", 25)), 160));
    assert [] + [doc] == [doc];
    assert "Rex" + " (" + "dog" + ")" == "Rex (dog)";
    assert ConfirmationOf(doc, SamDoc, RexDoc) == Confirmation("1", "Sam", "Rex (dog)", 3, "bath", 160);
  }

  /** The whole flow: one customer, one pet, one booking, one dog space fewer, and the confirmation shown. */
  lemma FirstDefaultCheckIn()
    ensures var (w', out) := CheckInSpec(Empty, DefaultRatePerDay, DefaultGroomingMenu, Request);
            && out == Confirmed(Confirmation("1", "Sam", "Rex (dog)", 3, "bath", 160))
            && w'.spaces == Counts(29, 12) && w'.customers == [SamDoc] && w'.pets == [RexDoc] && |w'.bookings| == 1
  {
    FirstThroughPet();
    FirstReserve();
    FirstBookStage();
  }
}
