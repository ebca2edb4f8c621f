/** The in-memory booking store: the shared document store over bookings, with no lookups. */
module BookingsMemory {
  import opened MemoryStore
  import opened BookingModel

  /** A stored booking: its `_id` and the booking's own fields. */
  type BookingDoc = Doc<Booking>

  /** `createBookingsRepo()`: the factory's closure over its list and counter. */
  type BookingsRepo = Repo<Booking>
}
