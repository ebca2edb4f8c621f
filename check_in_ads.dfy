/**
 * The in-memory check-in engine: a per-species space inventory that hands out
 * `D-n` / `C-n` labels, and the engine that keeps customers, pets and bookings by id,
 * a name index sorted by lowercased name, a FIFO check-in queue and a LIFO undo stack.
 */
module CheckInAds {
  import opened Wrappers
  import opened Text

  const DefaultDogSpaces := 30
  const DefaultCatSpaces := 12

  // ===========================================================================
  // Inventory: per-species space counters
  // ===========================================================================

  /** A space handed out for a dog (`D-n`) or a cat (`C-n`). */
  datatype SpaceId = DogSpace(n: nat) | CatSpace(n: nat)

  /** The spaceLabel the inventory returns for a space. */
  function RenderSpace(id: SpaceId): string {
    match id
    case DogSpace(n) => "D-" + NatToString(n)
    case CatSpace(n) => "C-" + NatToString(n)
  }

  /** Two different spaces never get the same spaceLabel. */
  lemma RenderSpaceInjective(a: SpaceId, b: SpaceId)
    ensures RenderSpace(a) == RenderSpace(b) ==> a == b
  {
    if RenderSpace(a) == RenderSpace(b) {
      assert RenderSpace(a)[0] == RenderSpace(b)[0];
      assert RenderSpace(a)[2..] == NatToString(a.n);
      assert RenderSpace(b)[2..] == NatToString(b.n);
      NatToStringInjective(a.n, b.n);
    }
  }

  /** The inventory's counters: free spaces per species and the next spaceLabel number per species. */
  datatype Spaces = Spaces(dog: int, cat: int, nextDog: nat, nextCat: nat)

  predicate NonNegative(s: Spaces) {
    s.dog >= 0 && s.cat >= 0
  }

  /** `hasSpaceFor(type)`. */
  predicate HasRoom(s: Spaces, species: string)
    ensures HasRoom(s, species) ==> species == "dog" || species == "cat"
  {
    if species == "dog" then s.dog > 0
    else if species == "cat" then s.cat > 0
    else false
  }

  /** `assignSpace(type)`: the new counters and the space handed out, if any. */
  function Assign(s: Spaces, species: string): (r: (Spaces, Option<SpaceId>))
    ensures r.1.None? <==> !HasRoom(s, species)
    ensures r.1.None? ==> r.0 == s
    ensures r.1.Some? ==> r.0.dog + r.0.cat == s.dog + s.cat - 1
    ensures NonNegative(s) ==> NonNegative(r.0)
  {
    if !HasRoom(s, species) then (s, None)
    else if species == "dog" then (s.(dog := s.dog - 1, nextDog := s.nextDog + 1), Some(DogSpace(s.nextDog)))
    else (s.(cat := s.cat - 1, nextCat := s.nextCat + 1), Some(CatSpace(s.nextCat)))
  }

  /** `releaseSpace(type)`. */
  function Release(s: Spaces, species: string): (r: Spaces)
    ensures species == "dog" ==> r == s.(dog := s.dog + 1)
    ensures species == "cat" ==> r == s.(cat := s.cat + 1)
    ensures species != "dog" && species != "cat" ==> r == s
  {
    if species == "dog" then s.(dog := s.dog + 1)
    else if species == "cat" then s.(cat := s.cat + 1)
    else s
  }

  /**
   * A release of the species just assigned gives back the free-space counts; only
   * that species' spaceLabel counter has moved on.
   */
  lemma AssignThenReleaseRestores(s: Spaces, species: string)
    requires HasRoom(s, species)
    ensures var s' := Release(Assign(s, species).0, species); s'.dog == s.dog && s'.cat == s.cat
    ensures species == "dog" ==> Release(Assign(s, species).0, species) == s.(nextDog := s.nextDog + 1)
    ensures species == "cat" ==> Release(Assign(s, species).0, species) == s.(nextCat := s.nextCat + 1)
  {
  }

  /** Every successful assignment of a species uses that species' next spaceLabel number. */
  lemma AssignLabels(s: Spaces, species: string)
    requires HasRoom(s, species)
    ensures species == "dog" ==> Assign(s, species) == (s.(dog := s.dog - 1, nextDog := s.nextDog + 1), Some(DogSpace(s.nextDog)))
    ensures species == "cat" ==> Assign(s, species) == (s.(cat := s.cat - 1, nextCat := s.nextCat + 1), Some(CatSpace(s.nextCat)))
  {
  }

  datatype SpaceOp = AssignOp(species: string) | ReleaseOp(species: string)

  /** Runs assign/release calls in order; gives the final counters and the spaces handed out. */
  function Run(s: Spaces, ops: seq<SpaceOp>): (Spaces, seq<SpaceId>)
    decreases |ops|
  {
    if ops == [] then (s, [])
    else
      match ops[0]
      case AssignOp(t) =>
        var (s1, id) := Assign(s, t);
        var (s2, ids) := Run(s1, ops[1..]);
        (s2, (if id.Some? then [id.value] else []) + ids)
      case ReleaseOp(t) =>
        Run(Release(s, t), ops[1..])
  }

  /** Starting from non-negative capacities, no sequence of assign/release makes a counter negative. */
  lemma {:induction false} RunStaysNonNegative(s: Spaces, ops: seq<SpaceOp>)
    requires NonNegative(s)
    ensures NonNegative(Run(s, ops).0)
    decreases |ops|
  {
    if ops != [] {
      match ops[0]
      case AssignOp(t) => RunStaysNonNegative(Assign(s, t).0, ops[1..]);
      case ReleaseOp(t) => RunStaysNonNegative(Release(s, t), ops[1..]);
    }
  }

  /** Label numbers handed out by a run lie between the start and the end counters. */
  predicate IssuedBetween(ids: seq<SpaceId>, lo: Spaces, hi: Spaces) {
    forall i :: 0 <= i < |ids| ==>
      if ids[i].DogSpace? then lo.nextDog <= ids[i].n < hi.nextDog else lo.nextCat <= ids[i].n < hi.nextCat
  }

  /** Per species, spaceLabel numbers rise strictly in the order they are handed out. */
  predicate StrictlyRising(ids: seq<SpaceId>) {
    forall i, j :: 0 <= i < j < |ids| && ids[i].DogSpace? == ids[j].DogSpace? ==> ids[i].n < ids[j].n
  }

  lemma {:induction false} RunLabelsRise(s: Spaces, ops: seq<SpaceOp>)
    ensures Run(s, ops).0.nextDog >= s.nextDog && Run(s, ops).0.nextCat >= s.nextCat
    ensures IssuedBetween(Run(s, ops).1, s, Run(s, ops).0)
    ensures StrictlyRising(Run(s, ops).1)
    decreases |ops|
  {
    if ops != [] {
      match ops[0]
      case AssignOp(t) =>
        var (s1, id) := Assign(s, t);
        RunLabelsRise(s1, ops[1..]);
        var (s2, ids) := Run(s1, ops[1..]);
        var all := (if id.Some? then [id.value] else []) + ids;
        assert Run(s, ops) == (s2, all);
        if id.Some? {
          AssignLabels(s, t);
          assert all == [id.value] + ids;
          assert forall j :: 1 <= j < |all| ==> all[j] == ids[j - 1];
        } else {
          assert all == ids;
        }
      case ReleaseOp(t) =>
        RunLabelsRise(Release(s, t), ops[1..]);
    }
  }

  /** The labels one inventory hands out are pairwise distinct. */
  lemma RunLabelsDistinct(s: Spaces, ops: seq<SpaceOp>)
    ensures var ids := Run(s, ops).1;
      forall i, j :: 0 <= i < j < |ids| ==> RenderSpace(ids[i]) != RenderSpace(ids[j])
  {
    RunLabelsRise(s, ops);
    var ids := Run(s, ops).1;
    forall i, j | 0 <= i < j < |ids| ensures RenderSpace(ids[i]) != RenderSpace(ids[j]) {
      RenderSpaceInjective(ids[i], ids[j]);
    }
  }

  function Label(id: Option<SpaceId>): Option<string> {
    match id
    case Some(x) => Some(RenderSpace(x))
    case None => None
  }

  /** `Inventory`: the counters one engine owns. */
  class SpaceInventory {
    var dogSpacesAvailable: int
    var catSpacesAvailable: int
    var nextDog: nat
    var nextCat: nat

    function State(): Spaces
      reads this
    {
      Spaces(dogSpacesAvailable, catSpacesAvailable, nextDog, nextCat)
    }

    constructor (dogSpaces: int := DefaultDogSpaces, catSpaces: int := DefaultCatSpaces)
      ensures State() == Spaces(dogSpaces, catSpaces, 1, 1)
    {
      dogSpacesAvailable := dogSpaces;
      catSpacesAvailable := catSpaces;
      nextDog := 1;
      nextCat := 1;
    }

    predicate HasSpaceFor(species: string)
      reads this
      ensures HasSpaceFor(species) <==>
                || (species == "dog" && dogSpacesAvailable > 0)
                || (species == "cat" && catSpacesAvailable > 0)
    {
      HasRoom(State(), species)
    }

    method AssignSpace(species: string) returns (spaceLabel: Option<string>)
      modifies this
      ensures State() == Assign(old(State()), species).0
      ensures spaceLabel == Label(Assign(old(State()), species).1)
    {
      if !HasSpaceFor(species) {
        return None;
      }
      if species == "dog" {
        dogSpacesAvailable := dogSpacesAvailable - 1;
        spaceLabel := Some(RenderSpace(DogSpace(nextDog)));
        nextDog := nextDog + 1;
        return;
      }
      if species == "cat" {
        catSpacesAvailable := catSpacesAvailable - 1;
        spaceLabel := Some(RenderSpace(CatSpace(nextCat)));
        nextCat := nextCat + 1;
        return;
      }
      spaceLabel := None;
    }

    method ReleaseSpace(species: string)
      modifies this
      ensures State() == Release(old(State()), species)
    {
      if species == "dog" {
        dogSpacesAvailable := dogSpacesAvailable + 1;
      }
      if species == "cat" {
        catSpacesAvailable := catSpacesAvailable + 1;
      }
    }
  }

  // ===========================================================================
  // The engine's records
  // ===========================================================================

  /** A customer as the engine sees it; any other fields are carried opaquely by the caller. */
  datatype CustomerRecord = CustomerRecord(id: string, name: string)

  /** A pet as handed to `addPet`; a missing field is the empty string. */
  datatype PetRecord = PetRecord(id: string, name: string, species: string, age: int, ownerId: string)

  /** One row of the name index. */
  datatype NameEntry = NameEntry(nameLower: string, petId: string)

  datatype Booking = Booking(id: string, petId: string, days: int, grooming: bool, spaceId: string, status: string)

  datatype UndoRecord =
    | AddPetEnqueue(petId: string)
    | CheckInConfirmed(petId: string, spaceId: string, bookingId: string)

  /** `{ok: true, booking}` or `{ok: false, message}`. */
  datatype CheckInResult = CheckedIn(booking: Booking) | NotCheckedIn(message: string)

  /** What `processNext` returns: the "Queue empty." failure, or a check-in result tagged with the pet id. */
  datatype ProcessResult = QueueEmpty | Processed(petId: string, result: CheckInResult)

  datatype UndoResult = UndoResult(ok: bool, message: string)

  datatype EngineState = EngineState(
    customers: nat, pets: nat, queueLength: nat, undoDepth: nat,
    dogSpacesAvailable: int, catSpacesAvailable: int, bookingsCount: nat)

  const PetNotFound := "Pet not found."
  const NoSpots := "Sorry, we have no more spots available."
  const MissingPetFields := "pet requires id, name, and type"
  const NothingToUndo := "Nothing to undo."
  const UndidEnqueue := "Undid add + enqueue."
  const NothingToRemove := "Nothing to remove from queue."
  const UndidCheckIn := "Undid confirmed check-in."
  const BookingNotFound := "Booking not found to undo."

  // ===========================================================================
  // Name index helpers
  // ===========================================================================

  /** `_cmpName`: -1, 0 or 1 as `a` sorts before, equal to, or after `b`. */
  function CompareNames(a: string, b: string): (r: int)
    ensures r == -1 <==> Less(a, b)
    ensures r == 0 <==> a == b
    ensures r == 1 <==> Less(b, a)
  {
    LessTrichotomy(a, b);
    LessAsymmetric(a, b);
    LessIrreflexive(a);
    if Less(a, b) then -1
    else if Less(b, a) then 1
    else 0
  }

  /** Non-decreasing by `nameLower`: no later entry sorts strictly before an earlier one. */
  ghost predicate SortedByName(s: seq<NameEntry>) {
    forall i, j :: 0 <= i < j < |s| ==> !Less(s[j].nameLower, s[i].nameLower)
  }

  /** `splice(i, 0, x)`. */
  function InsertAt<T(!new)>(s: seq<T>, i: nat, x: T): (r: seq<T>)
    requires i <= |s|
    ensures |r| == |s| + 1 && r[i] == x
    ensures multiset(r) == multiset(s) + multiset{x}
    ensures forall e :: e in r <==> e in s || e == x
  {
    assert s == s[..i] + s[i..];
    s[..i] + [x] + s[i..]
  }

  lemma SortedAbove(s: seq<NameEntry>, mid: nat, key: string)
    requires SortedByName(s) && mid < |s| && Less(key, s[mid].nameLower)
    ensures forall j :: mid <= j < |s| ==> Less(key, s[j].nameLower)
  {
    forall j | mid < j < |s| ensures Less(key, s[j].nameLower) {
      LessTrichotomy(s[mid].nameLower, s[j].nameLower);
      if Less(s[mid].nameLower, s[j].nameLower) {
        LessTransitive(key, s[mid].nameLower, s[j].nameLower);
      }
    }
  }

  lemma SortedBelow(s: seq<NameEntry>, mid: nat, key: string)
    requires SortedByName(s) && mid < |s| && Less(s[mid].nameLower, key)
    ensures forall j :: 0 <= j <= mid ==> Less(s[j].nameLower, key)
  {
    forall j | 0 <= j < mid ensures Less(s[j].nameLower, key) {
      LessTrichotomy(s[j].nameLower, s[mid].nameLower);
      if Less(s[j].nameLower, s[mid].nameLower) {
        LessTransitive(s[j].nameLower, s[mid].nameLower, key);
      }
    }
  }

  /** Inserting at a position where the key fits keeps the index sorted. */
  lemma InsertKeepsSorted(s: seq<NameEntry>, i: nat, e: NameEntry)
    requires SortedByName(s) && i <= |s|
    requires forall j :: 0 <= j < i ==> !Less(e.nameLower, s[j].nameLower)
    requires forall j :: i <= j < |s| ==> !Less(s[j].nameLower, e.nameLower)
    ensures SortedByName(InsertAt(s, i, e))
  {
    var r := InsertAt(s, i, e);
    assert forall j :: 0 <= j < i ==> r[j] == s[j];
    assert forall j :: i < j < |r| ==> r[j] == s[j - 1];
  }

  // ===========================================================================
  // Queue helpers
  // ===========================================================================

  /** The queue with the first occurrence of `x` taken out. */
  function RemoveFirst<T(==)>(q: seq<T>, x: T): seq<T> {
    if q == [] then []
    else if q[0] == x then q[1..]
    else [q[0]] + RemoveFirst(q[1..], x)
  }

  function FirstIndex<T(==)>(q: seq<T>, x: T): (i: nat)
    requires x in q
    ensures i < |q| && q[i] == x
    ensures forall j :: 0 <= j < i ==> q[j] != x
  {
    if q[0] == x then 0 else 1 + FirstIndex(q[1..], x)
  }

  /** An id that is not waiting leaves the queue as it is. */
  lemma {:induction false} RemoveFirstAbsent<T>(q: seq<T>, x: T)
    requires x !in q
    ensures RemoveFirst(q, x) == q
  {
    if q != [] {
      assert x !in q[1..];
      RemoveFirstAbsent(q[1..], x);
      assert q == [q[0]] + q[1..];
    }
  }

  /** Removing once deletes exactly the first occurrence and keeps the order of the rest. */
  lemma RemoveFirstDeletesFirstOccurrence<T>(q: seq<T>, x: T)
    requires x in q
    ensures RemoveFirst(q, x) == q[..FirstIndex(q, x)] + q[FirstIndex(q, x) + 1..]
  {
    RemoveFirstAt(q, x, FirstIndex(q, x));
  }

  /** Removing `x` when its first occurrence is at `i` cuts out element `i`. */
  lemma {:induction false} RemoveFirstAt<T>(q: seq<T>, x: T, i: nat)
    requires i < |q| && q[i] == x
    requires forall j :: 0 <= j < i ==> q[j] != x
    ensures RemoveFirst(q, x) == q[..i] + q[i + 1..]
    decreases i
  {
    if i == 0 {
      assert q[..0] + q[1..] == q[1..];
    } else {
      assert q[0] != x;
      RemoveFirstAt(q[1..], x, i - 1);
      SpliceCons(q, i - 1);
    }
  }

  /** Cutting element `i` out of the tail and putting the head back cuts element `i + 1` out of the whole. */
  lemma SpliceCons<T>(q: seq<T>, i: nat)
    requires i + 1 < |q|
    ensures [q[0]] + (q[1..][..i] + q[1..][i + 1..]) == q[..i + 1] + q[i + 2..]
  {
    assert q[..i + 1] == [q[0]] + q[1..][..i];
    assert q[i + 2..] == q[1..][i + 1..];
  }

  /** Removing once takes exactly one copy of the id out of the queue's contents. */
  lemma RemoveFirstMultiset<T>(q: seq<T>, x: T)
    requires x in q
    ensures multiset(RemoveFirst(q, x)) == multiset(q) - multiset{x}
    ensures |RemoveFirst(q, x)| == |q| - 1
  {
    RemoveFirstDeletesFirstOccurrence(q, x);
    var i := FirstIndex(q, x);
    assert q == q[..i] + [x] + q[i + 1..];
    assert multiset(q) == multiset(q[..i]) + multiset{x} + multiset(q[i + 1..]);
  }

  /** One loop step of `_removeFromQueueOnce`, seen on the part of the queue read so far. */
  lemma {:induction false} RemoveFirstAppend<T>(p: seq<T>, y: T, x: T)
    ensures RemoveFirst(p + [y], x) ==
      if x in p then RemoveFirst(p, x) + [y] else if y == x then p else p + [y]
  {
    if p == [] {
      assert [] + [y] == [y];
    } else {
      assert (p + [y])[1..] == p[1..] + [y];
      RemoveFirstAppend(p[1..], y, x);
      if p[0] != x {
        assert x in p <==> x in p[1..];
        assert p == [p[0]] + p[1..];
      }
    }
  }

  /**
   * An enqueue undone at once leaves a queue of the old length and the old elements;
   * the old queue itself comes back unless the id was already waiting, in which case
   * its earlier occurrence is the one taken out.
   */
  lemma UndoEnqueueRestoresQueue<T>(q: seq<T>, x: T)
    ensures |RemoveFirst(q + [x], x)| == |q|
    ensures multiset(RemoveFirst(q + [x], x)) == multiset(q)
    ensures x !in q ==> RemoveFirst(q + [x], x) == q
  {
    RemoveFirstAppend(q, x, x);
    if x in q {
      RemoveFirstMultiset(q, x);
      calc {
        multiset(RemoveFirst(q, x) + [x]);
        multiset(RemoveFirst(q, x)) + multiset{x};
        (multiset(q) - multiset{x}) + multiset{x};
        multiset(q);
      }
    }
  }

  /** The most recent undo record. */
  function Top(s: seq<UndoRecord>): UndoRecord
    requires s != []
  {
    s[|s| - 1]
  }

  function CountCheckedIn(rs: seq<ProcessResult>): nat {
    if rs == [] then 0
    else CountCheckedIn(rs[..|rs| - 1]) + (if rs[|rs| - 1].Processed? && rs[|rs| - 1].result.CheckedIn? then 1 else 0)
  }

  /** The number of results that checked in a registered pet of the given species. */
  function CheckedInOf(pets: map<string, PetRecord>, rs: seq<ProcessResult>, species: string): nat {
    if rs == [] then 0
    else
      var last := rs[|rs| - 1];
      CheckedInOf(pets, rs[..|rs| - 1], species)
        + (if last.Processed? && last.result.CheckedIn? && last.petId in pets && pets[last.petId].species == species then 1 else 0)
  }

  // ===========================================================================
  // Check-ins on the engine's ledger
  // ===========================================================================

  /** The part of the engine a check-in changes: the inventory's counters, the bookings, the booking counter and the undo stack. */
  datatype Ledger = Ledger(spaces: Spaces, bookings: map<string, Booking>, nextBookingId: nat, undoStack: seq<UndoRecord>)

  /** Every booking id is the numeral of a number below the booking counter. */
  ghost predicate BookingIdsBelow(bookings: map<string, Booking>, next: nat) {
    forall id :: id in bookings ==> ParseNat(id) < next && id == NatToString(ParseNat(id))
  }

  /**
   * `confirmCheckIn(petId, {days, grooming})` over the registered pets: an unknown
   * pet or a full species fails with its message and changes nothing; otherwise one
   * space of the pet's species is taken and a CONFIRMED booking is stored under the
   * numeral of the booking counter, which is a fresh id.
   */
  function Confirm(pets: map<string, PetRecord>, l: Ledger, petId: string, days: int, grooming: bool): (r: (Ledger, CheckInResult))
    ensures petId !in pets ==> r == (l, NotCheckedIn(PetNotFound))
    ensures petId in pets && !HasRoom(l.spaces, pets[petId].species) ==> r == (l, NotCheckedIn(NoSpots))
    ensures r.1.CheckedIn? <==> petId in pets && HasRoom(l.spaces, pets[petId].species)
    ensures r.1.CheckedIn? ==>
      var b := r.1.booking;
      var (spaces, id) := Assign(l.spaces, pets[petId].species);
      && b == Booking(NatToString(l.nextBookingId), petId, days, grooming, Label(id).value, "CONFIRMED")
      && r.0 == Ledger(spaces, l.bookings[b.id := b], l.nextBookingId + 1, l.undoStack + [CheckInConfirmed(petId, b.spaceId, b.id)])
    ensures r.0.spaces.dog + r.0.spaces.cat + (if r.1.CheckedIn? then 1 else 0) == l.spaces.dog + l.spaces.cat
    ensures NonNegative(l.spaces) ==> NonNegative(r.0.spaces)
  {
    if petId !in pets then (l, NotCheckedIn(PetNotFound))
    else if !HasRoom(l.spaces, pets[petId].species) then (l, NotCheckedIn(NoSpots))
    else
      var (spaces, id) := Assign(l.spaces, pets[petId].species);
      var bookingId := NatToString(l.nextBookingId);
      var booking := Booking(bookingId, petId, days, grooming, RenderSpace(id.value), "CONFIRMED");
      (Ledger(spaces, l.bookings[bookingId := booking], l.nextBookingId + 1, l.undoStack + [CheckInConfirmed(petId, booking.spaceId, bookingId)]),
       CheckedIn(booking))
  }

  /** A check-in stores its booking under an id not yet used, and booking ids stay numerals below the counter. */
  lemma ConfirmKeepsIdsFresh(pets: map<string, PetRecord>, l: Ledger, petId: string, days: int, grooming: bool)
    requires BookingIdsBelow(l.bookings, l.nextBookingId)
    ensures var (l1, r) := Confirm(pets, l, petId, days, grooming);
      && BookingIdsBelow(l1.bookings, l1.nextBookingId)
      && (r.CheckedIn? ==> r.booking.id !in l.bookings)
  {
    ParseNatToString(l.nextBookingId);
  }

  /**
   * `processAll` over the registered pets: every queued id, in queue order, gets the
   * outcome of `Confirm` on the ledger the ids before it left.
   */
  function ProcessRun(pets: map<string, PetRecord>, l: Ledger, q: seq<string>, days: int, grooming: bool): (r: (Ledger, seq<ProcessResult>))
    ensures |r.1| == |q|
    ensures forall i :: 0 <= i < |q| ==> r.1[i].Processed? && r.1[i].petId == q[i]
    decreases |q|
  {
    if q == [] then (l, [])
    else
      var (l1, rs) := ProcessRun(pets, l, q[..|q| - 1], days, grooming);
      var (l2, res) := Confirm(pets, l1, q[|q| - 1], days, grooming);
      (l2, rs + [Processed(q[|q| - 1], res)])
  }

  /**
   * Over a whole run, each species' free spaces drop by exactly the number of its
   * pets checked in, non-negative counters stay so, and booking ids stay fresh.
   */
  lemma {:induction false} ProcessRunSpaces(pets: map<string, PetRecord>, l: Ledger, q: seq<string>, days: int, grooming: bool)
    ensures var (l', rs) := ProcessRun(pets, l, q, days, grooming);
      && l'.spaces.dog == l.spaces.dog - CheckedInOf(pets, rs, "dog")
      && l'.spaces.cat == l.spaces.cat - CheckedInOf(pets, rs, "cat")
      && (NonNegative(l.spaces) ==> NonNegative(l'.spaces))
      && (BookingIdsBelow(l.bookings, l.nextBookingId) ==> BookingIdsBelow(l'.bookings, l'.nextBookingId))
    decreases |q|
  {
    if q != [] {
      var p := q[..|q| - 1];
      ProcessRunSpaces(pets, l, p, days, grooming);
      var (l1, rs) := ProcessRun(pets, l, p, days, grooming);
      var (l2, res) := Confirm(pets, l1, q[|q| - 1], days, grooming);
      if BookingIdsBelow(l.bookings, l.nextBookingId) {
        ConfirmKeepsIdsFresh(pets, l1, q[|q| - 1], days, grooming);
      }
      assert ProcessRun(pets, l, q, days, grooming) == (l2, rs + [Processed(q[|q| - 1], res)]);
      assert (rs + [Processed(q[|q| - 1], res)])[..|rs|] == rs;
    }
  }

  /** Over a whole run, the free total drops and the undo stack grows by the number of check-ins. */
  lemma {:induction false} ProcessRunCounts(pets: map<string, PetRecord>, l: Ledger, q: seq<string>, days: int, grooming: bool)
    ensures var (l', rs) := ProcessRun(pets, l, q, days, grooming);
      && l'.spaces.dog + l'.spaces.cat + CountCheckedIn(rs) == l.spaces.dog + l.spaces.cat
      && |l'.undoStack| == |l.undoStack| + CountCheckedIn(rs)
    decreases |q|
  {
    if q != [] {
      var p := q[..|q| - 1];
      ProcessRunCounts(pets, l, p, days, grooming);
      var (l1, rs) := ProcessRun(pets, l, p, days, grooming);
      var (l2, res) := Confirm(pets, l1, q[|q| - 1], days, grooming);
      assert ProcessRun(pets, l, q, days, grooming) == (l2, rs + [Processed(q[|q| - 1], res)]);
      assert (rs + [Processed(q[|q| - 1], res)])[..|rs|] == rs;
    }
  }

  /**
   * Three dogs queued while two dog spaces are free: the first two are confirmed in
   * `D-n`, `D-(n+1)`, the third is declined, and no dog space is left.
   */
  lemma ThreeDogsTwoSpaces(pets: map<string, PetRecord>, l: Ledger, a: string, b: string, c: string, days: int, grooming: bool)
    requires a in pets && b in pets && c in pets
    requires pets[a].species == "dog" && pets[b].species == "dog" && pets[c].species == "dog"
    requires l.spaces.dog == 2
    ensures var (l', rs) := ProcessRun(pets, l, [a, b, c], days, grooming);
      && rs[0] == Processed(a, CheckedIn(Booking(NatToString(l.nextBookingId), a, days, grooming, RenderSpace(DogSpace(l.spaces.nextDog)), "CONFIRMED")))
      && rs[1] == Processed(b, CheckedIn(Booking(NatToString(l.nextBookingId + 1), b, days, grooming, RenderSpace(DogSpace(l.spaces.nextDog + 1)), "CONFIRMED")))
      && rs[2] == Processed(c, NotCheckedIn(NoSpots))
      && l'.spaces == l.spaces.(dog := 0, nextDog := l.spaces.nextDog + 2)
      && l'.nextBookingId == l.nextBookingId + 2
  {
    var l1 := Confirm(pets, l, a, days, grooming).0;
    var l2 := Confirm(pets, l1, b, days, grooming).0;
    ConfirmDog(pets, l, a, days, grooming);
    ConfirmDog(pets, l1, b, days, grooming);
    ConfirmDog(pets, l2, c, days, grooming);
    ProcessRunSnoc(pets, l, [], a, days, grooming);
    assert [] + [a] == [a];
    ProcessRunSnoc(pets, l, [a], b, days, grooming);
    assert [a] + [b] == [a, b];
    ProcessRunSnoc(pets, l, [a, b], c, days, grooming);
    assert [a, b] + [c] == [a, b, c];
  }

  /** The loop step of `processAll`: the run over one more queued id, from the run so far. */
  lemma ProcessRunStep(pets: map<string, PetRecord>, l0: Ledger, q: seq<string>, k: nat, l: Ledger, rs: seq<ProcessResult>,
                       l': Ledger, r: ProcessResult, days: int, grooming: bool)
    requires k < |q| && (l, rs) == ProcessRun(pets, l0, q[..k], days, grooming)
    requires r.Processed? && r.petId == q[k] && (l', r.result) == Confirm(pets, l, q[k], days, grooming)
    ensures (l', rs + [r]) == ProcessRun(pets, l0, q[..k + 1], days, grooming)
  {
    ProcessRunSnoc(pets, l0, q[..k], q[k], days, grooming);
    assert q[..k + 1] == q[..k] + [q[k]];
  }

  /** `Confirm` on a registered dog: the next dog space while one is free, the no-spots message otherwise. */
  lemma ConfirmDog(pets: map<string, PetRecord>, l: Ledger, a: string, days: int, grooming: bool)
    requires a in pets && pets[a].species == "dog"
    ensures var (l1, r) := Confirm(pets, l, a, days, grooming);
      if l.spaces.dog > 0 then
        && r == CheckedIn(Booking(NatToString(l.nextBookingId), a, days, grooming, RenderSpace(DogSpace(l.spaces.nextDog)), "CONFIRMED"))
        && l1.spaces == l.spaces.(dog := l.spaces.dog - 1, nextDog := l.spaces.nextDog + 1)
        && l1.nextBookingId == l.nextBookingId + 1
      else
        l1 == l && r == NotCheckedIn(NoSpots)
  {
  }

  /** One more queued id: the run so far, then `Confirm` on the ledger it left. */
  lemma ProcessRunSnoc(pets: map<string, PetRecord>, l: Ledger, p: seq<string>, x: string, days: int, grooming: bool)
    ensures var (l1, rs) := ProcessRun(pets, l, p, days, grooming);
      var (l2, res) := Confirm(pets, l1, x, days, grooming);
      ProcessRun(pets, l, p + [x], days, grooming) == (l2, rs + [Processed(x, res)])
  {
    assert (p + [x])[..|p|] == p;
  }

  // ===========================================================================
  // The engine
  // ===========================================================================

  class CheckInEngine {
    var customersById: map<string, CustomerRecord>
    var petsById: map<string, PetRecord>
    var petsByNameSorted: seq<NameEntry>
    var checkInQueue: seq<string>
    var undoStack: seq<UndoRecord>
    const inventory: SpaceInventory
    var bookings: map<string, Booking>
    var nextBookingId: nat

    /**
     * The engine's invariant: the name index is sorted and points at registered pets,
     * pets are stored under their own id, every queued id is a registered pet, and
     * every booking id is the numeral of a number below the booking counter.
     */
    ghost predicate Valid()
      reads this
    {
      && SortedByName(petsByNameSorted)
      && (forall e :: e in petsByNameSorted ==> e.petId in petsById)
      && (forall id :: id in petsById ==> petsById[id].id == id)
      && (forall id :: id in checkInQueue ==> id in petsById)
      && BookingIdsBelow(bookings, nextBookingId)
      && nextBookingId >= 1
    }

    /** Every index entry carries the lowercased name of the pet now stored under its id. */
    ghost predicate NamesAgree()
      reads this
    {
      forall e :: e in petsByNameSorted ==> e.petId in petsById && ToLower(petsById[e.petId].name) == e.nameLower
    }

    constructor (dogSpaces: int := DefaultDogSpaces, catSpaces: int := DefaultCatSpaces)
      ensures Valid() && NamesAgree()
      ensures customersById == map[] && petsById == map[] && bookings == map[]
      ensures petsByNameSorted == [] && checkInQueue == [] && undoStack == []
      ensures nextBookingId == 1
      ensures fresh(inventory) && inventory.State() == Spaces(dogSpaces, catSpaces, 1, 1)
    {
      customersById := map[];
      petsById := map[];
      petsByNameSorted := [];
      checkInQueue := [];
      undoStack := [];
      inventory := new SpaceInventory(dogSpaces, catSpaces);
      bookings := map[];
      nextBookingId := 1;
    }

    /** `_bsearchName`: an exact-match index, or the insertion point when the key is absent. */
    method BsearchName(nameLower: string) returns (found: bool, idx: nat)
      requires SortedByName(petsByNameSorted)
      ensures idx <= |petsByNameSorted|
      ensures found ==> idx < |petsByNameSorted| && petsByNameSorted[idx].nameLower == nameLower
      ensures !found ==> forall j :: 0 <= j < |petsByNameSorted| ==> petsByNameSorted[j].nameLower != nameLower
      ensures !found ==> forall j :: 0 <= j < idx ==> Less(petsByNameSorted[j].nameLower, nameLower)
      ensures !found ==> forall j :: idx <= j < |petsByNameSorted| ==> Less(nameLower, petsByNameSorted[j].nameLower)
    {
      var s := petsByNameSorted;
      var left: int := 0;
      var right: int := |s| - 1;
      while left <= right
        invariant 0 <= left <= right + 1 <= |s|
        invariant forall j :: 0 <= j < left ==> Less(s[j].nameLower, nameLower)
        invariant forall j :: right < j < |s| ==> Less(nameLower, s[j].nameLower)
        decreases right - left
      {
        var mid := (left + right) / 2;
        var cmp := CompareNames(nameLower, s[mid].nameLower);
        if cmp == 0 {
          return true, mid;
        }
        if cmp < 0 {
          SortedAbove(s, mid, nameLower);
          right := mid - 1;
        } else {
          SortedBelow(s, mid, nameLower);
          left := mid + 1;
        }
      }
      LessIrreflexive(nameLower);
      return false, left;
    }

    /** `_insertNameIndex`: splices one entry in at the binary-search position. */
    method InsertNameIndex(name: string, petId: string) returns (ghost at: nat)
      requires SortedByName(petsByNameSorted)
      modifies this`petsByNameSorted
      ensures at <= |old(petsByNameSorted)|
      ensures petsByNameSorted == InsertAt(old(petsByNameSorted), at, NameEntry(ToLower(name), petId))
      ensures SortedByName(petsByNameSorted)
    {
      var nameLower := ToLower(name);
      var found, idx := BsearchName(nameLower);
      var e := NameEntry(nameLower, petId);
      forall j | 0 <= j < |petsByNameSorted|
        ensures j < idx ==> !Less(nameLower, petsByNameSorted[j].nameLower)
        ensures idx <= j ==> !Less(petsByNameSorted[j].nameLower, nameLower)
      {
        LessAsymmetric(nameLower, petsByNameSorted[j].nameLower);
        LessAsymmetric(petsByNameSorted[j].nameLower, nameLower);
      }
      InsertKeepsSorted(petsByNameSorted, idx, e);
      petsByNameSorted := InsertAt(petsByNameSorted, idx, e);
      at := idx;
    }

    /** `_removeFromQueueOnce`: rebuilds the queue without the first occurrence of `petId`. */
    method RemoveFromQueueOnce(petId: string) returns (removed: bool)
      modifies this`checkInQueue
      ensures removed <==> petId in old(checkInQueue)
      ensures checkInQueue == RemoveFirst(old(checkInQueue), petId)
    {
      removed := false;
      var next: seq<string> := [];
      var q := checkInQueue;
      for k := 0 to |q|
        invariant removed <==> petId in q[..k]
        invariant next == RemoveFirst(q[..k], petId)
      {
        RemoveFirstAppend(q[..k], q[k], petId);
        if petId !in q[..k] {
          RemoveFirstAbsent(q[..k], petId);
        }
        assert q[..k + 1] == q[..k] + [q[k]];
        if !removed && q[k] == petId {
          removed := true;
          continue;
        }
        next := next + [q[k]];
      }
      assert q[..|q|] == q;
      checkInQueue := next;
    }

    /** `addOrFindCustomer`: idempotent by id. */
    method AddOrFindCustomer(customer: CustomerRecord) returns (r: CustomerRecord)
      modifies this`customersById
      ensures customer.id in old(customersById) ==> r == old(customersById)[customer.id] && customersById == old(customersById)
      ensures customer.id !in old(customersById) ==> r == customer && customersById == old(customersById)[customer.id := customer]
    {
      if customer.id in customersById {
        return customersById[customer.id];
      }
      customersById := customersById[customer.id := customer];
      return customer;
    }

    /** `addPet`: registers, indexes and enqueues the pet and records the action for undo. */
    method AddPet(pet: PetRecord) returns (r: Result<PetRecord>)
      requires Valid()
      modifies this`petsById, this`petsByNameSorted, this`checkInQueue, this`undoStack
      ensures Valid()
      ensures pet.id == "" || pet.name == "" || pet.species == "" ==>
        && r == Err(MissingPetFields)
        && petsById == old(petsById) && petsByNameSorted == old(petsByNameSorted)
        && checkInQueue == old(checkInQueue) && undoStack == old(undoStack)
      ensures pet.id != "" && pet.name != "" && pet.species != "" ==>
        && r == Ok(pet)
        && petsById == old(petsById)[pet.id := pet]
        && |petsByNameSorted| == |old(petsByNameSorted)| + 1
        && multiset(petsByNameSorted) == multiset(old(petsByNameSorted)) + multiset{NameEntry(ToLower(pet.name), pet.id)}
        && checkInQueue == old(checkInQueue) + [pet.id]
        && undoStack == old(undoStack) + [AddPetEnqueue(pet.id)]
      ensures old(NamesAgree()) && pet.id !in old(petsById) ==> NamesAgree()
    {
      if pet.id == "" || pet.name == "" || pet.species == "" {
        return Err(MissingPetFields);
      }
      ghost var index := petsByNameSorted;
      petsById := petsById[pet.id := pet];
      ghost var at := InsertNameIndex(pet.name, pet.id);
      assert forall e :: e in petsByNameSorted ==> e in index || e == NameEntry(ToLower(pet.name), pet.id);
      checkInQueue := checkInQueue + [pet.id];
      undoStack := undoStack + [AddPetEnqueue(pet.id)];
      return Ok(pet);
    }

    /** `findPetByName`: case-insensitive lookup through the sorted name index. */
    method FindPetByName(name: string) returns (r: Option<PetRecord>)
      requires Valid()
      ensures r.None? <==> forall e :: e in petsByNameSorted ==> e.nameLower != ToLower(name)
      ensures r.Some? ==> exists e :: e in petsByNameSorted && e.nameLower == ToLower(name) && e.petId in petsById && petsById[e.petId] == r.value
      ensures r.Some? && NamesAgree() ==> ToLower(r.value.name) == ToLower(name)
    {
      var nameLower := ToLower(name);
      var found, idx := BsearchName(nameLower);
      if found {
        var petId := petsByNameSorted[idx].petId;
        assert petsByNameSorted[idx] in petsByNameSorted;
        // The source falls back to null when the id is no longer stored; Valid() rules that out.
        return Some(petsById[petId]);
      }
      return None;
    }

    /** The engine's ledger: what a check-in changes. */
    function LedgerState(): Ledger
      reads this, inventory
    {
      Ledger(inventory.State(), bookings, nextBookingId, undoStack)
    }

    /** `confirmCheckIn`: reserve a space and record a CONFIRMED booking under a fresh id. */
    method ConfirmCheckIn(petId: string, days: int := 1, grooming: bool := false) returns (r: CheckInResult)
      requires Valid()
      modifies this`bookings, this`nextBookingId, this`undoStack, inventory
      ensures Valid()
      ensures (LedgerState(), r) == Confirm(petsById, old(LedgerState()), petId, days, grooming)
    {
      ghost var l := LedgerState();
      ConfirmKeepsIdsFresh(petsById, l, petId, days, grooming);
      if petId !in petsById {
        return NotCheckedIn(PetNotFound);
      }
      var pet := petsById[petId];
      if !inventory.HasSpaceFor(pet.species) {
        return NotCheckedIn(NoSpots);
      }
      var spaceId := inventory.AssignSpace(pet.species);
      ghost var (spaces, id) := Assign(l.spaces, pet.species);
      assert inventory.State() == spaces && id.Some? && spaceId == Some(RenderSpace(id.value));
      var bookingId := NatToString(nextBookingId);
      nextBookingId := nextBookingId + 1;
      var booking := Booking(bookingId, petId, days, grooming, spaceId.value, "CONFIRMED");
      bookings := bookings[bookingId := booking];
      undoStack := undoStack + [CheckInConfirmed(petId, spaceId.value, bookingId)];
      r := CheckedIn(booking);
      assert (LedgerState(), r) == Confirm(petsById, l, petId, days, grooming);
    }

    /** `processNext`: check in the pet at the head of the queue. */
    method ProcessNext(days: int := 1, grooming: bool := false) returns (r: ProcessResult)
      requires Valid()
      modifies this`checkInQueue, this`bookings, this`nextBookingId, this`undoStack, inventory
      ensures Valid()
      ensures old(checkInQueue) == [] ==> r == QueueEmpty && unchanged(this) && unchanged(inventory)
      ensures old(checkInQueue) != [] ==>
        && r.Processed?
        && r.petId == old(checkInQueue)[0]
        && checkInQueue == old(checkInQueue)[1..]
        && (LedgerState(), r.result) == Confirm(petsById, old(LedgerState()), r.petId, days, grooming)
    {
      if |checkInQueue| == 0 {
        return QueueEmpty;
      }
      var petId := checkInQueue[0];
      checkInQueue := checkInQueue[1..];
      var result := ConfirmCheckIn(petId, days, grooming);
      return Processed(petId, result);
    }

    /** `processAll`: drains the queue, one result per queued id, in queue order. */
    method ProcessAll(days: int := 1, grooming: bool := false) returns (results: seq<ProcessResult>)
      requires Valid()
      modifies this`checkInQueue, this`bookings, this`nextBookingId, this`undoStack, inventory
      ensures Valid()
      ensures checkInQueue == []
      ensures (LedgerState(), results) == ProcessRun(petsById, old(LedgerState()), old(checkInQueue), days, grooming)
    {
      results := [];
      ghost var q := checkInQueue;
      ghost var l0 := LedgerState();
      while |checkInQueue| > 0
        invariant Valid()
        invariant |results| <= |q| && checkInQueue == q[|results|..]
        invariant (LedgerState(), results) == ProcessRun(petsById, l0, q[..|results|], days, grooming)
        decreases |checkInQueue|
      {
        ghost var before := LedgerState();
        var r := ProcessNext(days, grooming);
        ProcessRunStep(petsById, l0, q, |results|, before, results, LedgerState(), r, days, grooming);
        results := results + [r];
      }
      assert q[..|results|] == q;
    }

    /** The `ADD_PET_ENQUEUE` branch of `undoRecent`. */
    method UndoEnqueue(petId: string) returns (r: UndoResult)
      requires Valid()
      modifies this`checkInQueue
      ensures Valid()
      ensures checkInQueue == RemoveFirst(old(checkInQueue), petId)
      ensures r == UndoResult(true, if petId in old(checkInQueue) then UndidEnqueue else NothingToRemove)
    {
      ghost var q := checkInQueue;
      if petId in q {
        RemoveFirstMultiset(q, petId);
      } else {
        RemoveFirstAbsent(q, petId);
      }
      var removed := RemoveFromQueueOnce(petId);
      assert forall id :: id in checkInQueue ==> id in q by {
        forall id | id in checkInQueue ensures id in q {
          assert id in multiset(checkInQueue);
        }
      }
      return UndoResult(true, if removed then UndidEnqueue else NothingToRemove);
    }

    /** The `CHECK_IN_CONFIRMED` branch of `undoRecent`. */
    method UndoCheckIn(petId: string, bookingId: string) returns (r: UndoResult)
      requires Valid()
      modifies this`bookings, inventory
      ensures Valid()
      ensures bookingId in old(bookings) ==>
        && r == UndoResult(true, UndidCheckIn)
        && bookings == old(bookings) - {bookingId}
        && inventory.State() ==
             if petId in petsById then Release(old(inventory.State()), petsById[petId].species)
             else old(inventory.State())
      ensures bookingId !in old(bookings) ==>
        && r == UndoResult(false, BookingNotFound)
        && bookings == old(bookings) && inventory.State() == old(inventory.State())
    {
      if bookingId in bookings {
        bookings := bookings - {bookingId};
        if petId in petsById {
          inventory.ReleaseSpace(petsById[petId].species);
        }
        return UndoResult(true, UndidCheckIn);
      }
      return UndoResult(false, BookingNotFound);
    }

    /** `undoRecent`: pops one record and reverses what it recorded. */
    method UndoRecent() returns (r: UndoResult)
      requires Valid()
      modifies this`checkInQueue, this`bookings, this`undoStack, inventory
      ensures Valid()
      ensures old(undoStack) == [] ==> r == UndoResult(false, NothingToUndo) && unchanged(this) && unchanged(inventory)
      ensures old(undoStack) != [] ==> undoStack == old(undoStack)[..|old(undoStack)| - 1]
      ensures old(undoStack) != [] && Top(old(undoStack)).AddPetEnqueue? ==>
        var id := Top(old(undoStack)).petId;
        && checkInQueue == RemoveFirst(old(checkInQueue), id)
        && r == UndoResult(true, if id in old(checkInQueue) then UndidEnqueue else NothingToRemove)
        && bookings == old(bookings) && inventory.State() == old(inventory.State())
      ensures old(undoStack) != [] && Top(old(undoStack)).CheckInConfirmed? ==>
        var rec := Top(old(undoStack));
        && checkInQueue == old(checkInQueue)
        && (rec.bookingId in old(bookings) ==>
              && r == UndoResult(true, UndidCheckIn)
              && bookings == old(bookings) - {rec.bookingId}
              && inventory.State() ==
                   if rec.petId in petsById then Release(old(inventory.State()), petsById[rec.petId].species)
                   else old(inventory.State()))
        && (rec.bookingId !in old(bookings) ==>
              && r == UndoResult(false, BookingNotFound)
              && bookings == old(bookings) && inventory.State() == old(inventory.State()))
    {
      if |undoStack| == 0 {
        return UndoResult(false, NothingToUndo);
      }
      var action := undoStack[|undoStack| - 1];
      undoStack := undoStack[..|undoStack| - 1];
      match action
      case AddPetEnqueue(petId) =>
        r := UndoEnqueue(petId);
      case CheckInConfirmed(petId, _, bookingId) =>
        r := UndoCheckIn(petId, bookingId);
    }

    /** `getState`: a snapshot of the sizes and the two counters. */
    function GetState(): (st: EngineState)
      reads this, inventory
      ensures st.queueLength == |checkInQueue| && st.undoDepth == |undoStack|
      ensures st.dogSpacesAvailable == inventory.State().dog && st.catSpacesAvailable == inventory.State().cat
      ensures st.pets == |petsById| && st.customers == |customersById| && st.bookingsCount == |bookings|
    {
      EngineState(|customersById|, |petsById|, |checkInQueue|, |undoStack|,
                  inventory.dogSpacesAvailable, inventory.catSpacesAvailable, |bookings|)
    }
  }

  // ===========================================================================
  // Undo right after the action it records
  // ===========================================================================

  /**
   * `addPet` followed at once by `undoRecent`: the pet leaves the queue again (the
   * queue regains its old length and contents, and its old order when the id was
   * not already waiting) and the undo stack is as before, while the pet stays
   * registered and its name-index entry stays in place.
   */
  method AddPetThenUndo(e: CheckInEngine, pet: PetRecord) returns (added: Result<PetRecord>, undone: UndoResult)
    requires e.Valid()
    requires pet.id != "" && pet.name != "" && pet.species != ""
    modifies e, e.inventory
    ensures e.Valid()
    ensures added == Ok(pet) && undone == UndoResult(true, UndidEnqueue)
    ensures |e.checkInQueue| == |old(e.checkInQueue)| && multiset(e.checkInQueue) == multiset(old(e.checkInQueue))
    ensures pet.id !in old(e.checkInQueue) ==> e.checkInQueue == old(e.checkInQueue)
    ensures e.undoStack == old(e.undoStack)
    ensures e.petsById == old(e.petsById)[pet.id := pet]
    ensures |e.petsByNameSorted| == |old(e.petsByNameSorted)| + 1
    ensures multiset(e.petsByNameSorted) == multiset(old(e.petsByNameSorted)) + multiset{NameEntry(ToLower(pet.name), pet.id)}
    ensures e.bookings == old(e.bookings) && e.inventory.State() == old(e.inventory.State())
    ensures e.customersById == old(e.customersById) && e.nextBookingId == old(e.nextBookingId)
  {
    ghost var q := e.checkInQueue;
    added := e.AddPet(pet);
    assert e.checkInQueue == q + [pet.id];
    undone := e.UndoRecent();
    UndoEnqueueRestoresQueue(q, pet.id);
  }

  /**
   * `confirmCheckIn` followed at once by `undoRecent`: when the check-in went
   * through, the booking is gone again, the free-space counters are back where they
   * were and the undo stack is as before; only the pet's spaceLabel counter and the
   * booking counter have moved on.
   */
  method ConfirmThenUndo(e: CheckInEngine, petId: string, days: int, grooming: bool) returns (confirmed: CheckInResult, undone: UndoResult)
    requires e.Valid()
    modifies e, e.inventory
    ensures e.Valid()
    ensures e.customersById == old(e.customersById) && e.petsById == old(e.petsById)
    ensures e.petsByNameSorted == old(e.petsByNameSorted)
    ensures confirmed.CheckedIn? ==>
              && undone == UndoResult(true, UndidCheckIn)
              && e.checkInQueue == old(e.checkInQueue)
              && e.bookings == old(e.bookings) && e.undoStack == old(e.undoStack)
              && e.inventory.State().dog == old(e.inventory.State().dog)
              && e.inventory.State().cat == old(e.inventory.State().cat)
              && e.nextBookingId == old(e.nextBookingId) + 1
              && petId in old(e.petsById)
              && (old(e.petsById)[petId].species == "dog" ==>
                    e.inventory.State() == old(e.inventory.State()).(nextDog := old(e.inventory.State()).nextDog + 1))
              && (old(e.petsById)[petId].species == "cat" ==>
                    e.inventory.State() == old(e.inventory.State()).(nextCat := old(e.inventory.State()).nextCat + 1))
  {
    ghost var l0 := e.LedgerState();
    ConfirmThenRelease(e.petsById, l0, petId, days, grooming);
    confirmed := e.ConfirmCheckIn(petId, days, grooming);
    ghost var l1 := e.LedgerState();
    undone := e.UndoRecent();
    if confirmed.CheckedIn? {
      assert e.inventory.State() == Release(l1.spaces, e.petsById[petId].species);
    }
  }

  /**
   * What undoing a successful `Confirm` relies on: its record is on top of the undo
   * stack, its booking is the only one added, and releasing its species gives back
   * the space it took.
   */
  lemma ConfirmThenRelease(pets: map<string, PetRecord>, l: Ledger, petId: string, days: int, grooming: bool)
    requires BookingIdsBelow(l.bookings, l.nextBookingId)
    ensures var (l1, r) := Confirm(pets, l, petId, days, grooming);
      r.CheckedIn? ==>
        && l1.undoStack != [] && Top(l1.undoStack) == CheckInConfirmed(petId, r.booking.spaceId, r.booking.id)
        && l1.undoStack[..|l1.undoStack| - 1] == l.undoStack
        && r.booking.id in l1.bookings && l1.bookings - {r.booking.id} == l.bookings
        && petId in pets
        && var s := Release(l1.spaces, pets[petId].species);
           && s.dog == l.spaces.dog && s.cat == l.spaces.cat
           && (pets[petId].species == "dog" ==> s == l.spaces.(nextDog := l.spaces.nextDog + 1))
           && (pets[petId].species == "cat" ==> s == l.spaces.(nextCat := l.spaces.nextCat + 1))
  {
    var (l1, r) := Confirm(pets, l, petId, days, grooming);
    ConfirmKeepsIdsFresh(pets, l, petId, days, grooming);
    if r.CheckedIn? {
      AssignThenReleaseRestores(l.spaces, pets[petId].species);
      assert l1.bookings - {r.booking.id} == l.bookings;
    }
  }
}
