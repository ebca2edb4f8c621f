/**
 * The booking record: snapshots of the pet and the customer, a positive whole
 * number of days, an optional grooming add-on and a finite, non-negative price.
 */
module BookingModel {
  import opened Wrappers

  const PetRequired := "pet required"
  const CustomerRequired := "customer required"
  const BadDays := "daysStay must be > 0"
  const BadAmount := "amountDue must be >= 0"

  /** `{ id, type, name }` of the pet. */
  datatype PetSnapshot = PetSnapshot(id: string, species: string, name: string)

  /** `{ id, name }` of the customer. */
  datatype CustomerSnapshot = CustomerSnapshot(id: string, name: string)

  /** `{ type, price }` of a grooming add-on. */
  datatype Grooming = Grooming(kind: string, price: int)

  datatype Booking = Booking(pet: PetSnapshot, customer: CustomerSnapshot, daysStay: nat, grooming: Option<Grooming>, amountDue: nat)

  /** `Booking.validateDays(v)`, `None` being a value whose `Number(v)` is not an integer. */
  function ValidateDays(v: Option<int>): (r: Result<nat>)
    ensures r.Ok? <==> v.Some? && v.value > 0
    ensures r.Ok? ==> r.value == v.value && r.value >= 1
    ensures r.Err? ==> r.error == BadDays
  {
    if v.None? || v.value <= 0 then Err(BadDays) else Ok(v.value)
  }

  /** `Booking.validateAmount(v)`, `None` being a value whose `Number(v)` is not finite (NaN). */
  function ValidateAmount(v: Option<int>): (r: Result<nat>)
    ensures r.Ok? <==> v.Some? && v.value >= 0
    ensures r.Ok? ==> r.value == v.value
    ensures r.Err? ==> r.error == BadAmount
  {
    if v.None? || v.value < 0 then Err(BadAmount) else Ok(v.value)
  }

  /**
   * `new Booking({pet, customer, daysStay, grooming, amountDue})`: the checks run
   * in the order pet, customer, days, amount, and the first that fails is thrown.
   * An omitted grooming is null and an omitted amount is 0.
   */
  function NewBooking(pet: Option<PetSnapshot>, customer: Option<CustomerSnapshot>, daysStay: Option<int>,
                      grooming: Option<Grooming> := None, amountDue: Option<int> := Some(0)): (r: Result<Booking>)
    ensures r.Ok? <==> pet.Some? && customer.Some? && ValidateDays(daysStay).Ok? && ValidateAmount(amountDue).Ok?
    ensures pet.None? ==> r == Err(PetRequired)
    ensures pet.Some? && customer.None? ==> r == Err(CustomerRequired)
    ensures pet.Some? && customer.Some? && ValidateDays(daysStay).Err? ==> r == Err(BadDays)
    ensures pet.Some? && customer.Some? && ValidateDays(daysStay).Ok? && ValidateAmount(amountDue).Err? ==> r == Err(BadAmount)
    ensures r.Ok? ==> r.value.daysStay >= 1 && r.value.daysStay == daysStay.value && r.value.amountDue == amountDue.value
    ensures r.Ok? ==> Some(r.value.pet) == pet && Some(r.value.customer) == customer && r.value.grooming == grooming
  {
    if pet.None? then Err(PetRequired)
    else if customer.None? then Err(CustomerRequired)
    else
      match ValidateDays(daysStay)
      case Err(e) => Err(e)
      case Ok(d) =>
        match ValidateAmount(amountDue)
        case Err(e) => Err(e)
        case Ok(a) => Ok(Booking(pet.value, customer.value, d, grooming, a))
  }

  /** Without grooming or amount, a booking is stored with no add-on and nothing due. */
  lemma NewBookingDefaults(pet: PetSnapshot, customer: CustomerSnapshot, daysStay: int)
    requires daysStay > 0
    ensures NewBooking(Some(pet), Some(customer), Some(daysStay)) == Ok(Booking(pet, customer, daysStay, None, 0))
  {
  }

  /** A booking rebuilt from its own fields is the same booking. */
  lemma NewBookingIdempotent(b: Booking)
    requires b.daysStay >= 1
    ensures NewBooking(Some(b.pet), Some(b.customer), Some(b.daysStay), b.grooming, Some(b.amountDue)) == Ok(b)
  {
  }
}
