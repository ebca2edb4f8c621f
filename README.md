# Pet check-in core, modelled in Dafny

This project models the logic of a boarding-kennel check-in system: how pets and customers are registered, how dog and cat spaces are counted, how check-ins are queued, confirmed and undone, and how a check-in is priced and booked.

- **The in-memory check-in engine** (`checkInAds.js`).
  - `Inventory` is a per-species space counter. It hands out `D-n` / `C-n` space labels.
  - `CheckInEngine` holds:
    - id maps for customers, pets and bookings;
    - a name index kept sorted by binary-search insertion;
    - a FIFO check-in queue;
    - a LIFO undo stack of tagged records.
  - Both are Dafny classes whose fields the methods update.
  - Every method states its whole new state. The check-in methods do so through a pure step, `Confirm`, on a `Ledger` value (inventory counters, bookings, booking counter, undo stack), and `processAll` through `ProcessRun`, the fold of `Confirm` over the queue.
  - The engine constructor and methods take the source's defaults: 30 dog and 12 cat spaces, and 1 day without grooming.
  - Every method keeps the engine invariant `Valid()`:
    - the name index is sorted and points at registered pets;
    - queued ids are registered;
    - every booking id is the numeral of a number below the booking counter, so a new booking id is always fresh.
- **The stand-alone capacity counter** (`Inventory.js` of the second module).
  - The counters are validated once.
  - `reserve` throws when no space is left; thrown errors are modelled as `Result`/`Outcome` values.
  - Every type other than `dog` counts as a cat.
  - A pure `Counts` value carries the properties, and the `Inventory` class is tied to it.
- **The binary search** (`binarySearch.js`). It is a loop over a read-only `array<string>` ordered by JavaScript's string `<`, the order its one caller (`search.service.js`) sorts pet names in.
- **The validating constructors** of `Pet`, `Customer` and `Booking`. These are pure functions returning `Result`.
- **The in-memory repositories** for customers, pets and bookings.
  - The three factories build the same store, modelled once as `MemoryStore.Repo<T>`: an append-only `seq` of documents with a counter that issues `_id`s `"1"`, `"2"`, ….
  - Lookups are first-match functions over the stored sequence.
- **`PetCheckInService.checkIn`**.
  - Its flow is stated as a pure function, `CheckInSpec`, over a `World` value. `World` holds the three stores and the inventory counters.
  - The flow is: find or create the customer, find or create the pet, reserve a space, price the stay, validate and store the booking, and confirm.
  - The `PetCheckInService.CheckIn` method runs that flow on the repository and inventory objects. It is proved to produce exactly `CheckInSpec`'s state and outcome.

Shared pieces:

- **`Wrappers`**: `Option` stands for null/undefined, `Result` for a value or a thrown error, and `Outcome` for a thrown error or nothing.
- **`Text`**: the JavaScript string operations the code relies on:
  - lexicographic `<`;
  - `toLowerCase`;
  - `trim`, with the full ECMAScript white-space set;
  - `String(n)`, with its inverse.
- **`Seqs`**: `Array.prototype.find`.

Nothing here touches I/O, clocks or the network. The timestamps the code stores are left out (see below).

## Model

| member | source | states |
|---|---|---|
| CheckInAds.HasRoom | Capstone_Milestone3/Capstone_Mod3/services/checkInAds.js:15-19 | there is room only for `dog` or `cat`; any other type never has room |
| CheckInAds.Assign | Capstone_Milestone3/Capstone_Mod3/services/checkInAds.js:22-33 | no space is handed out exactly when there is no room, and then nothing changes; otherwise the free total drops by exactly one; non-negative counters stay non-negative |
| CheckInAds.Release | Capstone_Milestone3/Capstone_Mod3/services/checkInAds.js:36-39 | `dog` adds exactly one to the free dog spaces and `cat` exactly one to the free cat spaces, leaving everything else as it was; an unknown type is a no-op |
| CheckInAds.AssignThenReleaseRestores | Capstone_Milestone3/Capstone_Mod3/services/checkInAds.js:22-39 | releasing the species just assigned gives back both free-space counts; only that species' label counter has moved on |
| CheckInAds.RunStaysNonNegative | Capstone_Milestone3/Capstone_Mod3/services/checkInAds.js:15-39 | from non-negative capacities, no sequence of assign/release calls makes a counter negative |
| CheckInAds.RunLabelsRise | Capstone_Milestone3/Capstone_Mod3/services/checkInAds.js:26-30 | over any sequence of calls, the label numbers handed out rise strictly per species and lie between the start and end counters |
| CheckInAds.RenderSpaceInjective | Capstone_Milestone3/Capstone_Mod3/services/checkInAds.js:26-30 | two different spaces never render to the same `D-n`/`C-n` label |
| CheckInAds.RunLabelsDistinct | Capstone_Milestone3/Capstone_Mod3/services/checkInAds.js:22-33 | the labels one inventory hands out are pairwise distinct |
| CheckInAds.SpaceInventory.constructor | Capstone_Milestone3/Capstone_Mod3/services/checkInAds.js:7-12 | the counters start at the given capacities and both label counters at 1 |
| CheckInAds.SpaceInventory.HasSpaceFor | Capstone_Milestone3/Capstone_Mod3/services/checkInAds.js:15-19 | true exactly for `dog` with a free dog space or `cat` with a free cat space; false for any other type |
| CheckInAds.SpaceInventory.AssignSpace | Capstone_Milestone3/Capstone_Mod3/services/checkInAds.js:22-33 | the new counters and the returned label (or null) are those of `Assign` on the old counters |
| CheckInAds.SpaceInventory.ReleaseSpace | Capstone_Milestone3/Capstone_Mod3/services/checkInAds.js:36-39 | the new counters are those of `Release` on the old counters |
| CheckInAds.CompareNames | Capstone_Milestone3/Capstone_Mod3/services/checkInAds.js:69-73 | -1, 0 and 1 exactly when the first name sorts before, equals, or sorts after the second |
| Text.LessTrichotomy | Capstone_Milestone3/Capstone_Mod3/services/checkInAds.js:69-73 | any two strings are equal or ordered one way or the other, so `_cmpName` is total |
| Text.LessTransitive | Capstone_Milestone3/Capstone_Mod3/services/checkInAds.js:69-73 | string `<` is transitive, which binary search over the index relies on |
| Text.LessAsymmetric | Capstone_Milestone3/Capstone_Mod3/services/checkInAds.js:69-73 | string `<` never holds both ways |
| CheckInAds.InsertAt | Capstone_Milestone3/Capstone_Mod3/services/checkInAds.js:94 | `splice(i, 0, x)` puts `x` at `i` and adds exactly one copy of it to the contents |
| CheckInAds.InsertKeepsSorted | Capstone_Milestone3/Capstone_Mod3/services/checkInAds.js:90-95 | inserting at a position where the key fits keeps the index non-decreasing by `nameLower` |
| CheckInAds.CheckInEngine.BsearchName | Capstone_Milestone3/Capstone_Mod3/services/checkInAds.js:77-88 | on a sorted index: found gives an index holding the key; not found means no entry has the key and the index returned is the insertion point (all before it smaller, all from it larger) |
| CheckInAds.CheckInEngine.InsertNameIndex | Capstone_Milestone3/Capstone_Mod3/services/checkInAds.js:91-95 | the index gains exactly the entry (lowercased name, pet id) and stays sorted |
| CheckInAds.RemoveFirstAbsent | Capstone_Milestone3/Capstone_Mod3/services/checkInAds.js:98-110 | removing an id that is not waiting leaves the queue unchanged |
| CheckInAds.RemoveFirstDeletesFirstOccurrence | Capstone_Milestone3/Capstone_Mod3/services/checkInAds.js:98-110 | removing once deletes exactly the first occurrence and keeps the order of the rest |
| CheckInAds.RemoveFirstAt | Capstone_Milestone3/Capstone_Mod3/services/checkInAds.js:98-110 | when the first occurrence of the id is at position `i`, removing once cuts out exactly element `i` |
| CheckInAds.RemoveFirstMultiset | Capstone_Milestone3/Capstone_Mod3/services/checkInAds.js:98-110 | removing a waiting id shortens the queue by one and takes exactly one copy out of its contents |
| CheckInAds.RemoveFirstAppend | Capstone_Milestone3/Capstone_Mod3/services/checkInAds.js:101-107 | one step of the rebuilding loop, stated on the prefix of the queue read so far |
| CheckInAds.CheckInEngine.RemoveFromQueueOnce | Capstone_Milestone3/Capstone_Mod3/services/checkInAds.js:98-110 | reports removal exactly when the id was waiting, and the queue becomes the old queue without its first occurrence |
| CheckInAds.UndoEnqueueRestoresQueue | Capstone_Milestone3/Capstone_Mod3/services/checkInAds.js:200-208 | undoing an enqueue restores the queue's length and contents, and the queue itself when the id was not already waiting |
| CheckInAds.CheckInEngine.constructor | Capstone_Milestone3/Capstone_Mod3/services/checkInAds.js:43-64 | all maps, the index, the queue and the undo stack start empty, the booking counter at 1, and the invariant holds |
| CheckInAds.CheckInEngine.AddOrFindCustomer | Capstone_Milestone3/Capstone_Mod3/services/checkInAds.js:115-120 | a known id returns the stored customer and leaves the map unchanged; a new id adds exactly that entry and returns the customer |
| CheckInAds.CheckInEngine.AddPet | Capstone_Milestone3/Capstone_Mod3/services/checkInAds.js:123-134 | a missing id, name or type fails with "pet requires id, name, and type" and changes nothing. Otherwise it stores the pet by id, adds exactly one index entry, appends the id to the queue and pushes one `ADD_PET_ENQUEUE` record, keeping the invariant |
| CheckInAds.CheckInEngine.FindPetByName | Capstone_Milestone3/Capstone_Mod3/services/checkInAds.js:137-145 | null exactly when no index entry has the lowercased query; otherwise the pet an entry with that key points at, whose lowercased name equals the query while the index agrees with the pets |
| CheckInAds.Confirm | Capstone_Milestone3/Capstone_Mod3/services/checkInAds.js:148-180 | an unknown pet gives "Pet not found." and a full species the no-spots message, both changing nothing; it checks in exactly when the pet is known and its species has room, and then takes that species' next space, stores a `CONFIRMED` booking with the given days and grooming under `String(counter)`, advances the counter and pushes one `CHECK_IN_CONFIRMED` record; the free total drops by one per check-in and non-negative counters stay so |
| CheckInAds.ConfirmKeepsIdsFresh | Capstone_Milestone3/Capstone_Mod3/services/checkInAds.js:159-169 | when every booking id is the numeral of a number below the counter, a check-in's id `String(counter)` is an id not yet used, and that stays true afterwards |
| CheckInAds.CheckInEngine.ConfirmCheckIn | Capstone_Milestone3/Capstone_Mod3/services/checkInAds.js:148-180 | the new inventory, bookings, booking counter and undo stack, and the result, are those of `Confirm` on the old ones; defaults are 1 day without grooming |
| CheckInAds.CheckInEngine.ProcessNext | Capstone_Milestone3/Capstone_Mod3/services/checkInAds.js:183-188 | an empty queue gives "Queue empty." and changes nothing; otherwise it removes exactly the head, tags the result with it, and the new ledger and result are `Confirm` of the old ledger on it |
| CheckInAds.ProcessRun | Capstone_Milestone3/Capstone_Mod3/services/checkInAds.js:191-197 | one result per queued id, tagged with that id in queue order, each the outcome of `Confirm` on the ledger the earlier ids left |
| CheckInAds.ProcessRunSnoc | Capstone_Milestone3/Capstone_Mod3/services/checkInAds.js:191-197 | a run over one more queued id is the shorter run followed by `Confirm` of that id |
| CheckInAds.ProcessRunStep | Capstone_Milestone3/Capstone_Mod3/services/checkInAds.js:191-197 | one iteration of the `processAll` loop: the run over the queue read so far, followed by `processNext`'s outcome, is the run over one more id |
| CheckInAds.ProcessRunSpaces | Capstone_Milestone3/Capstone_Mod3/services/checkInAds.js:191-197 | over a whole run, the free dog spaces drop by exactly the number of dogs checked in and the cat spaces by the number of cats; non-negative counters stay so; booking ids stay fresh |
| CheckInAds.ProcessRunCounts | Capstone_Milestone3/Capstone_Mod3/services/checkInAds.js:191-197 | over a whole run, the free total drops and the undo stack grows by exactly the number of check-ins |
| CheckInAds.ThreeDogsTwoSpaces | Capstone_Milestone3/Capstone_Mod3/services/checkInAds.js:148-197 | three queued dogs with two dog spaces free: the first two are confirmed in consecutive `D-n` spaces under consecutive booking ids, the third gets the no-spots message, and no dog space is left |
| CheckInAds.ConfirmDog | Capstone_Milestone3/Capstone_Mod3/services/checkInAds.js:148-180 | a registered dog gets the next `D-n` space and the next booking id while a dog space is free, and the no-spots message with nothing changed otherwise |
| CheckInAds.CheckInEngine.ProcessAll | Capstone_Milestone3/Capstone_Mod3/services/checkInAds.js:191-197 | the queue ends empty; the results and the new inventory, bookings, booking counter and undo stack are exactly `ProcessRun` of the old ledger over the old queue |
| CheckInAds.CheckInEngine.UndoEnqueue | Capstone_Milestone3/Capstone_Mod3/services/checkInAds.js:204-208 | removes the first queue occurrence of the id and always reports ok, with the message saying whether anything was removed |
| CheckInAds.CheckInEngine.UndoCheckIn | Capstone_Milestone3/Capstone_Mod3/services/checkInAds.js:210-220 | an existing booking is deleted and the pet's species gets its space back; a missing booking reports failure and changes nothing |
| CheckInAds.CheckInEngine.UndoRecent | Capstone_Milestone3/Capstone_Mod3/services/checkInAds.js:200-224 | an empty stack gives "Nothing to undo." and changes nothing; otherwise exactly one record is popped and reversed by its tag |
| CheckInAds.CheckInEngine.GetState | Capstone_Milestone3/Capstone_Mod3/services/checkInAds.js:227-239 | the snapshot reports the map sizes, queue length, undo depth and both free-space counters |
| CheckInAds.AddPetThenUndo | Capstone_Milestone3/Capstone_Mod3/services/checkInAds.js:123-208 | add then immediate undo: the queue regains its length and contents (and order if the id was new to it) and the undo stack is as before, while the pet stays registered and the index keeps exactly one more entry, the pet's lowercased name and id; customers, bookings, inventory and booking counter are untouched |
| CheckInAds.ConfirmThenUndo | Capstone_Milestone3/Capstone_Mod3/services/checkInAds.js:148-220 | a successful check-in undone at once leaves the queue, the bookings, the undo stack and both free-space counters as before; only the booking counter and the checked-in species' label counter (`D-n` or `C-n`) have advanced; customers, pets and the name index are untouched either way |
| CheckInAds.ConfirmThenRelease | Capstone_Milestone3/Capstone_Mod3/services/checkInAds.js:148-220 | after a successful check-in its record is on top of the undo stack, its booking is the only one added, and releasing the pet's species gives back both free-space counts |
| Text.ToLower | Capstone_Milestone3/Capstone_Mod3/services/checkInAds.js:92 | `toLowerCase` keeps the length and folds each character |
| Text.ToLowerIdempotent | Capstone_Milestone3/Capstone_Mod3/models/Pet.js:18 | lowercasing twice is lowercasing once |
| Text.Trim | Capstone_Milestone3/Capstone_Mod3/models/Pet.js:18 | the result has no white space at either end, and is empty exactly when the input is all white space |
| Text.TrimPadded | Capstone_Milestone3/Capstone_Mod3/models/Pet.js:25 | `trim` removes exactly the surrounding white space: padding around a trimmed string is dropped and nothing else |
| Text.TrimOfTrimmed | Capstone_Milestone3/Capstone_Mod3/models/Pet.js:25 | a string without white space at either end is its own trim |
| Text.TrimIdempotent | Capstone_Milestone3/Capstone_Mod3/models/Pet.js:25 | trimming twice is trimming once |
| Text.NatToString | Capstone_Milestone3/Capstone_Mod3/services/checkInAds.js:159 | `String(n)` is a non-empty string of decimal digits |
| Text.ParseNatToString | Capstone_Milestone3/Capstone_Mod3/services/checkInAds.js:159 | reading back `String(n)` gives `n` |
| Text.NatToStringInjective | Capstone_Milestone3/Capstone_Mod3/repos/customers.memory.js:9 | `String(m) == String(n)` exactly when `m == n` |
| Text.NumberedDistinct | Capstone_Milestone3/Capstone_Mod3/repos/customers.memory.js:4-9 | ids issued as "1", "2", … are pairwise distinct |
| Text.NumberedNextIsFresh | Capstone_Milestone3/Capstone_Mod3/repos/bookings.memory.js:4-7 | the next id a counter issues is not among those issued before |
| CapacityInventory.Validate | Capstone_Milestone3/Capstone_Mod3/Capstone_Mod2_RX/Capstone/models/Inventory.js:12-16 | accepts exactly the integers >= 0, returned unchanged; a non-integer (`None`) or a negative value gives "spaces must be >= 0" |
| CapacityInventory.ReserveCounts | Capstone_Milestone3/Capstone_Mod3/Capstone_Mod2_RX/Capstone/models/Inventory.js:20-28 | fails ("no dog spaces" for dog, "no cat spaces" for anything else) exactly when the type's counter is below 1; otherwise that counter drops by one and the other is untouched |
| CapacityInventory.ReleaseCounts | Capstone_Milestone3/Capstone_Mod3/Capstone_Mod2_RX/Capstone/models/Inventory.js:32-35 | the counter of the type (dog for `dog`, cat otherwise) rises by one, the other is untouched |
| CapacityInventory.ReserveThenReleaseRestores | Capstone_Milestone3/Capstone_Mod3/Capstone_Mod2_RX/Capstone/models/Inventory.js:20-35 | a successful reserve followed by a release of the same type restores the counters |
| CapacityInventory.RunCountsNonNegative | Capstone_Milestone3/Capstone_Mod3/Capstone_Mod2_RX/Capstone/models/Inventory.js:6-35 | counters stay non-negative over any sequence of reserve/release calls |
| CapacityInventory.Inventory.constructor | Capstone_Milestone3/Capstone_Mod3/Capstone_Mod2_RX/Capstone/models/Inventory.js:6-10 | counters start at the given validated capacities, 30 dog and 12 cat spaces when omitted |
| CapacityInventory.Inventory.Create | Capstone_Milestone3/Capstone_Mod3/Capstone_Mod2_RX/Capstone/models/Inventory.js:6-16 | an inventory is built exactly when both capacities are integers >= 0, with 30 and 12 for an omitted one; otherwise "spaces must be >= 0" |
| CapacityInventory.Inventory.Reserve | Capstone_Milestone3/Capstone_Mod3/Capstone_Mod2_RX/Capstone/models/Inventory.js:20-28 | the new counters and the thrown error are those of `ReserveCounts`; a failed reserve leaves the counters unchanged |
| CapacityInventory.Inventory.Release | Capstone_Milestone3/Capstone_Mod3/Capstone_Mod2_RX/Capstone/models/Inventory.js:32-35 | the new counters are those of `ReleaseCounts` |
| SearchUtil.BinarySearch | Capstone_Final/utils/binarySearch.js:1-23 | over strings in JavaScript's `<` order: result is -1 or an index holding the target; on a sorted array -1 exactly when the target is absent; an empty array gives -1; the loop terminates and the array is only read |
| PetModel.ValidateType | Capstone_Milestone3/Capstone_Mod3/models/Pet.js:17-21 | accepts exactly when the trimmed, lowercased input is `dog` or `cat` and returns that word; otherwise "type must be dog or cat" |
| PetModel.ValidateTypeIgnoresPaddingAndCase | Capstone_Milestone3/Capstone_Mod3/models/Pet.js:17-21 | any casing of `dog`/`cat` with any surrounding white space validates to the lowercase word |
| PetModel.ValidateTypeIdempotent | Capstone_Milestone3/Capstone_Mod3/models/Pet.js:17-21 | a validated type validates to itself |
| PetModel.ValidateName | Capstone_Milestone3/Capstone_Mod3/models/Pet.js:23-29 | rejects non-strings and blank strings with "name required"; otherwise returns the trimmed, non-empty name |
| PetModel.ValidateNameIgnoresPadding | Capstone_Milestone3/Capstone_Mod3/models/Pet.js:23-29 | names differing only in surrounding white space validate to the same name |
| PetModel.ValidateNameIdempotent | Capstone_Milestone3/Capstone_Mod3/models/Pet.js:23-29 | a validated name validates to itself |
| PetModel.ValidateAge | Capstone_Milestone3/Capstone_Mod3/models/Pet.js:31-36 | accepts exactly the integers >= 0, unchanged; a non-integer gives "age must be an integer", a negative "age must be >= 0" |
| PetModel.NewPet | Capstone_Milestone3/Capstone_Mod3/models/Pet.js:7-13 | succeeds exactly when all three validators do, failing with the first error in the order type, name, age; stores the normalised type, name and age and the given owner id, null when omitted |
| PetModel.NewPetIdempotent | Capstone_Milestone3/Capstone_Mod3/models/Pet.js:7-36 | rebuilding a valid pet from its own fields gives the same pet |
| CustomerModel.NewCustomer | Capstone_Milestone4/models/Customer.js:5-14 | fails with "customer name required" exactly when the name is missing or blank; stores the trimmed name and keeps id, phone and email verbatim, each null when omitted |
| CustomerModel.NewCustomerSameTrim | Capstone_Milestone4/models/Customer.js:8-11 | two names that trim to the same string build the same customer (or both are rejected) |
| CustomerModel.NewCustomerIgnoresPadding | Capstone_Milestone4/models/Customer.js:8-11 | white space around the name does not change the customer built |
| CustomerModel.NewCustomerIdempotent | Capstone_Milestone4/models/Customer.js:8-13 | rebuilding a customer from its own fields gives the same customer |
| BookingModel.ValidateDays | Capstone_Milestone4/models/Booking.js:29-33 | accepts exactly the integers > 0, unchanged; otherwise "daysStay must be > 0" |
| BookingModel.ValidateAmount | Capstone_Milestone4/models/Booking.js:35-39 | rejects non-finite and negative amounts with "amountDue must be >= 0"; returns valid amounts unchanged |
| BookingModel.NewBooking | Capstone_Milestone4/models/Booking.js:6-24 | checks pet, customer, days, amount in that order and fails with the first error; a booking built has `daysStay >= 1`, `amountDue >= 0`, and the given snapshots and grooming; grooming defaults to null and the amount to 0 |
| BookingModel.NewBookingDefaults | Capstone_Milestone4/models/Booking.js:6-23 | with grooming and amount omitted, a booking with positive days is stored with no add-on and 0 due |
| BookingModel.NewBookingIdempotent | Capstone_Milestone4/models/Booking.js:6-39 | rebuilding a booking from its own fields gives the same booking |
| Seqs.FindIndex | Capstone_Milestone3/Capstone_Mod3/repos/customers.memory.js:7 | the index of the first element satisfying the filter, or none when no element does |
| Seqs.Find | Capstone_Milestone3/Capstone_Mod3/repos/customers.memory.js:7 | `find` returns null exactly when nothing matches, otherwise the first stored element that matches |
| Seqs.FindAppend | Capstone_Milestone4/repos/pets.memory.js:6-12 | after appending a matching element, `find` returns the earlier match if there was one and the new element otherwise |
| CustomersMemory.FindOneByPhoneOrEmail | Capstone_Milestone3/Capstone_Mod3/repos/customers.memory.js:6-7 | the first stored customer whose phone equals a truthy phone or whose email equals a truthy email, else null; null whenever both are falsy |
| CustomersMemory.CreatedCustomerIsFound | Capstone_Milestone3/Capstone_Mod3/repos/customers.memory.js:6-12 | after `create`, a lookup the new customer matches returns the earlier matching customer if there was one and the new one otherwise |
| MemoryStore.Repo.constructor | Capstone_Milestone3/Capstone_Mod3/repos/customers.memory.js:3-4 | the store starts empty and the counter at 1 |
| MemoryStore.Repo.Create | Capstone_Milestone3/Capstone_Mod3/repos/customers.memory.js:8-12 | appends and returns exactly one document carrying the given fields under `String(counter)`, an id not used before; earlier documents are unchanged and the counter advances |
| MemoryStore.Repo.All | Capstone_Milestone3/Capstone_Mod3/repos/customers.memory.js:14 | as many documents as `create` calls, in creation order, with pairwise distinct ids |
| PetsMemory.FindOneByOwnerAndName | Capstone_Milestone4/repos/pets.memory.js:6-7 | the first stored pet with that owner id and that name, else null |
| PetsMemory.CreatedPetIsFound | Capstone_Milestone4/repos/pets.memory.js:6-12 | after `create(p)`, looking up by `p`'s owner and name finds a pet: the earlier one with that owner and name if there was one, the new one otherwise |
| CheckInService.CustomerStep | Capstone_Milestone4/services/PetCheckInService.js:41-50 | the customer used is in the resulting store, which is the old store or the old store plus that one customer |
| CheckInService.PetStep | Capstone_Milestone4/services/PetCheckInService.js:55-63 | the pet used is in the resulting store, which is the old store or the old one plus a new pet of a valid type owned by the given customer |
| CheckInService.CheckInSpec | Capstone_Milestone4/services/PetCheckInService.js:33-108 | the whole flow on the stores and counters: each store keeps its documents and gains at most one; a decline carries the no-spots message and leaves the counters and bookings as they were; a confirmation stores exactly one booking |
| CheckInService.GroomingFor | Capstone_Milestone4/services/PetCheckInService.js:78-80 | an add-on exactly for a truthy option, of that kind, priced from the menu or at 0 when the menu lacks it; never negative on a non-negative menu |
| CheckInService.AmountDue | Capstone_Milestone4/services/PetCheckInService.js:77-88 | a price exactly when the type has a rate and the stay is a whole number (else not an integer price); per-day rate times days, plus the add-on's price when there is one; non-negative on non-negative inputs |
| CheckInService.BookingFor | Capstone_Milestone4/services/PetCheckInService.js:82-89 | missing, fractional or non-positive days give "daysStay must be > 0" and a type without a rate "amountDue must be >= 0"; a record built carries the pet and customer snapshots, the days, the add-on and its price; positive days with a non-negative rate and menu always succeed |
| CheckInService.ConfirmationOf | Capstone_Milestone4/services/PetCheckInService.js:97-106 | the booking's `_id`, the customer's name, "name (type)", its days and amount, and the add-on's kind or "none" |
| CheckInService.PetStage | Capstone_Milestone4/services/PetCheckInService.js:55-107 | once the customer is known, the rest of the flow leaves the customer store alone and adds at most one pet |
| CheckInService.ReserveStage | Capstone_Milestone4/services/PetCheckInService.js:68-107 | the flow is declined exactly when the pet's type has no free space, and then nothing changes in this step; otherwise the counters are those after `reserve` |
| CheckInService.BookStage | Capstone_Milestone4/services/PetCheckInService.js:77-107 | after the reservation, only the booking store can change. A throw is "daysStay must be > 0" or "amountDue must be >= 0" and stores nothing. A confirmation stores exactly one booking, under the next id, with the pet and customer snapshots, the requested days, the grooming add-on and the computed price |
| CheckInService.CheckInFindsOrCreatesCustomer | Capstone_Milestone4/services/PetCheckInService.js:41-50 | a customer found by phone or email is reused; otherwise exactly one validated customer is added; a rejected name throws and changes nothing |
| CheckInService.CheckInFindsOrCreatesPet | Capstone_Milestone4/services/PetCheckInService.js:55-63 | the pet is looked up by (customer id, pet name) and created only if absent, owned by that customer; a rejected pet throws with no space taken |
| CheckInService.CheckInOnlyAppends | Capstone_Milestone4/services/PetCheckInService.js:41-93 | each store keeps its old documents and grows by at most one |
| CheckInService.NoSpaceDeclines | Capstone_Milestone4/services/PetCheckInService.js:68-73 | declined with "Sorry, we have no more spots available." exactly when the pet's type has no space; then no booking is stored and the counters are unchanged |
| CheckInService.ConfirmedBooksOnce | Capstone_Milestone4/services/PetCheckInService.js:69-106 | a confirmation stores exactly one booking under the next id, takes one space of the pet's type, and confirms the days, the grooming type or `none`, and `rate × days + grooming price` (0 for an option not on the menu) |
| CheckInService.ThrowStoresNoBooking | Capstone_Milestone4/services/PetCheckInService.js:69-89 | a thrown check-in stores no booking; a throw that changed the counters is a rejected stay or amount, with one space still taken |
| CheckInService.InvalidStayLeaksSpace | Capstone_Milestone4/services/PetCheckInService.js:69-89 | with a space free, a stay that is missing, not a whole number, or of 0 or fewer days throws "daysStay must be > 0" after reserving, and the space is not released |
| CheckInService.CheckInKeepsConsistent | Capstone_Milestone4/services/PetCheckInService.js:41-93 | every check-in keeps the stores consistent: pets have a valid type and a stored owner, bookings refer to a stored pet and customer, counters are non-negative |
| CheckInService.PetCheckInService.constructor | Capstone_Milestone4/services/PetCheckInService.js:14-30 | keeps the injected inventory, price tables and repositories |
| CheckInService.PetCheckInService.WithDefaults | Capstone_Milestone4/services/PetCheckInService.js:15-17 | the defaults: 30 dog and 12 cat spaces, 45/35 per day, bath 25 and full 55 |
| CheckInService.PetCheckInService.FindOrCreateCustomer | Capstone_Milestone4/services/PetCheckInService.js:41-50 | the customer repository ends as step 1 of `CheckInSpec` says, and the customer or the thrown error is the one it gives |
| CheckInService.PetCheckInService.FindOrCreatePet | Capstone_Milestone4/services/PetCheckInService.js:55-63 | the pet repository ends as step 2 of `CheckInSpec` says, and the pet or the thrown error is the one it gives |
| CheckInService.PetCheckInService.Book | Capstone_Milestone4/services/PetCheckInService.js:77-107 | a rejected booking throws and stores nothing; an accepted one is stored under the next id and confirmed |
| CheckInService.PetCheckInService.CheckIn | Capstone_Milestone4/services/PetCheckInService.js:33-108 | the repositories and inventory end in exactly the state `CheckInSpec` gives for the old state, and the outcome is its outcome |
| CheckInExamples.FirstCustomerStep | Capstone_Milestone4/services/PetCheckInService.js:41-50 | on an empty store, " Sam " is stored as "Sam" under `_id` "1" |
| CheckInExamples.FirstPetStep | Capstone_Milestone4/services/PetCheckInService.js:55-63 | a new "Dog" named "Rex" is stored as type `dog` under `_id` "1", owned by customer "1" |
| CheckInExamples.FirstBooking | Capstone_Milestone4/services/PetCheckInService.js:77-89 | 3 days for a dog at the default rate with a bath come to 160 |
| CheckInExamples.FirstDefaultCheckIn | Capstone_Milestone4/services/PetCheckInService.js:33-108 | the whole first check-in with the defaults confirms booking "1" for "Sam", "Rex (dog)", 3 days, bath, 160, leaving 29 dog spaces |

## Left out

- `createdAt`: the `new Date()` timestamp on engine bookings and on `Booking` is not modelled, because reading a clock is outside the model.
- `async`/`await`: nothing awaits real I/O, so the repository and service methods are ordinary sequential calls.
- `Number(...)` coercions are not modelled because they belong to floating point. Validators take an integer or `None`:
  - `None` stands for a value whose `Number(...)` is not an integer (for days, capacities and ages) or not finite (for amounts). `checkIn`'s `daysStay` is `None` when it is missing or fractional.
  - Callers are assumed to have coerced strings such as `"3"` already.
  - Amounts and rates are integers.
- Non-string arguments are not modelled:
  - `String(v ?? '')` in `validateType` and `String(name)` in `Customer` and `_insertNameIndex` are taken on strings only.
  - Non-string or numeric ids in the engine are modelled as strings; a falsy field is the empty string, and a null pet handed to `addPet` is outside the model.
- `toLowerCase` folds only ASCII letters, a simplification of full Unicode case mapping. String `<` compares characters, which matches JavaScript's code-unit order except for characters outside the Basic Multilingual Plane.
- The `>> 1` in `_bsearchName` and the `>>> 1` in `binarySearch` are modelled as division by 2. `>>> 1` converts `lo + hi` to an unsigned 32-bit integer, so in `binarySearch` the two agree for arrays of at most 2^31 elements. `>> 1` converts `left + right` to a signed 32-bit integer, so in `_bsearchName` they agree only for indexes of at most 2^30 entries.
- The "No handler for undo action." branch of `undoRecent` is not modelled: the undo stack only ever holds the two record kinds, so the branch cannot be reached.
- CheckInAds.CheckInEngine.FindPetByName: the guarantee that the returned pet's lowercased name equals the query is stated only while `NamesAgree()` holds, because `addPet` with an id already registered under a different name leaves the old index entry pointing at the renamed pet. The `|| null` fallback for an index entry whose pet is gone is also not modelled, because the engine invariant rules that case out.
- Undoing `addPet` only dequeues. The code leaves the pet and its name-index entry in place, and the model follows the code. When the id was already queued, the undo removes the earlier occurrence, so the queue's order is not restored.
- MemoryStore.Repo.Create: `create(x)` spreads any object, so an `_id` inside `x` would override the generated one. The model stores a `Customer`, `Pet` or `Booking`, none of which has an `_id`, so that override is not modelled.
- JavaScript numbers are doubles, but every counter is modelled as an unbounded `nat`: the engine's `_nextBookingId++` (`checkInAds.js` line 159), the space-label counters `_nextDog++` and `_nextCat++` (lines 26 and 30) and the repositories' `String(id++)`. Past 2^53 a double `++` stops advancing, so ids would repeat and `bookings.set` would overwrite an earlier booking, and from 10^21 on `String(n)` gives exponent notation such as "1e+21". The freshness and distinctness results (`Text.NumberedNextIsFresh`, `Text.NumberedDistinct`, `CheckInAds.RunLabelsDistinct`, the booking-id clause of the engine invariant) hold only below those bounds. For the same reason the price `rate × days + extras` is computed exactly, without double rounding.
- CheckInService.GroomingFor: the grooming menu is modelled as a map holding only its own keys. In the source, `groomingMenu[groomingOption]` also finds properties that every JavaScript object inherits (`toString`, `constructor`, `valueOf`, `__proto__`). For such an option the lookup is not nullish, the price becomes a string or NaN, and the booking throws "amountDue must be >= 0" after the space was reserved. The model prices these options at 0 and confirms, so `ConfirmedBooksOnce` holds only for options that are not such inherited property names.
- SearchUtil.BinarySearch: the source function is generic over JavaScript's `<` and `===`; the model fixes the element type to strings, the type of its one caller's sorted pet names. Numbers, mixed-type arrays and `<` coercions between types are not modelled.
- Milestone4's `models/Pet.js` and `models/Inventory.js`, which the service imports, are not part of this model. The service is modelled with the `Pet` of `Capstone_Milestone3/Capstone_Mod3/models/Pet.js` and the `reserve`/`release` contract of the second module's `Inventory.js`.
- The service's injected repositories are modelled only as the in-memory ones above. Other repository implementations, such as the Mongo-backed ones, are outside this model.
