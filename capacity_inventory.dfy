/**
 * The stand-alone capacity counter: two non-negative counters, validated once at
 * construction; `reserve` throws when the species has no free space, `release`
 * gives one back. Every type other than `"dog"` is counted as a cat.
 */
module CapacityInventory {
  import opened Wrappers

  const DefaultDogSpaces := 30
  const DefaultCatSpaces := 12
  const BadSpaces := "spaces must be >= 0"
  const NoDogSpaces := "no dog spaces"
  const NoCatSpaces := "no cat spaces"

  datatype Counts = Counts(dog: int, cat: int)

  /** The counter a type draws on: `dog` for `"dog"`, `cat` for anything else. */
  function Available(c: Counts, species: string): int {
    if species == "dog" then c.dog else c.cat
  }

  /** The counter a type does not draw on. */
  function Untouched(c: Counts, species: string): int {
    if species == "dog" then c.cat else c.dog
  }

  predicate NonNegative(c: Counts) {
    c.dog >= 0 && c.cat >= 0
  }

  /** `Inventory.validate(v)`, `None` being a value whose `Number(v)` is not an integer. */
  function Validate(v: Option<int>): (r: Result<nat>)
    ensures r.Ok? <==> v.Some? && v.value >= 0
    ensures r.Ok? ==> r.value == v.value
    ensures r.Err? ==> r.error == BadSpaces
  {
    if v.None? || v.value < 0 then Err(BadSpaces) else Ok(v.value)
  }

  /** `reserve(type)` on the counters: the new counters, or the error it throws. */
  function ReserveCounts(c: Counts, species: string): (r: Result<Counts>)
    ensures r.Err? <==> Available(c, species) < 1
    ensures r.Err? ==> r.error == (if species == "dog" then NoDogSpaces else NoCatSpaces)
    ensures r.Ok? ==> Available(r.value, species) == Available(c, species) - 1
    ensures r.Ok? ==> Untouched(r.value, species) == Untouched(c, species)
  {
    if species == "dog" then
      if c.dog < 1 then Err(NoDogSpaces) else Ok(c.(dog := c.dog - 1))
    else
      if c.cat < 1 then Err(NoCatSpaces) else Ok(c.(cat := c.cat - 1))
  }

  /** `release(type)` on the counters: one more free space, with no upper bound. */
  function ReleaseCounts(c: Counts, species: string): (r: Counts)
    ensures Available(r, species) == Available(c, species) + 1
    ensures Untouched(r, species) == Untouched(c, species)
  {
    if species == "dog" then c.(dog := c.dog + 1) else c.(cat := c.cat + 1)
  }

  /** A successful reserve followed by a release of the same type restores the counters. */
  lemma ReserveThenReleaseRestores(c: Counts, species: string)
    requires ReserveCounts(c, species).Ok?
    ensures ReleaseCounts(ReserveCounts(c, species).value, species) == c
  {
  }

  datatype CounterOp = ReserveOp(species: string) | ReleaseOp(species: string)

  /** Runs reserve/release calls in order; a reserve that throws leaves the counters as they were. */
  function RunCounts(c: Counts, ops: seq<CounterOp>): Counts
    decreases |ops|
  {
    if ops == [] then c
    else
      match ops[0]
      case ReserveOp(t) =>
        var r := ReserveCounts(c, t);
        RunCounts(if r.Ok? then r.value else c, ops[1..])
      case ReleaseOp(t) =>
        RunCounts(ReleaseCounts(c, t), ops[1..])
  }

  /** Counters stay non-negative over any sequence of reserve/release calls. */
  lemma {:induction false} RunCountsNonNegative(c: Counts, ops: seq<CounterOp>)
    requires NonNegative(c)
    ensures NonNegative(RunCounts(c, ops))
    decreases |ops|
  {
    if ops != [] {
      match ops[0]
      case ReserveOp(t) =>
        var r := ReserveCounts(c, t);
        RunCountsNonNegative(if r.Ok? then r.value else c, ops[1..]);
      case ReleaseOp(t) =>
        RunCountsNonNegative(ReleaseCounts(c, t), ops[1..]);
    }
  }

  /** `Inventory` with its `dog` and `cat` fields. */
  class Inventory {
    var dog: int
    var cat: int

    function State(): Counts
      reads this
    {
      Counts(dog, cat)
    }

    ghost predicate Valid()
      reads this
    {
      NonNegative(State())
    }

    constructor (dogSpaces: nat := DefaultDogSpaces, catSpaces: nat := DefaultCatSpaces)
      ensures Valid() && State() == Counts(dogSpaces, catSpaces)
    {
      dog := dogSpaces;
      cat := catSpaces;
    }

    /**
     * `new Inventory({dogSpaces, catSpaces})`: validates both capacities, dog first;
     * an omitted capacity is 30 dog or 12 cat spaces.
     */
    static method Create(dogSpaces: Option<int> := Some(DefaultDogSpaces), catSpaces: Option<int> := Some(DefaultCatSpaces))
      returns (r: Result<Inventory>)
      ensures r.Ok? <==> dogSpaces.Some? && dogSpaces.value >= 0 && catSpaces.Some? && catSpaces.value >= 0
      ensures r.Err? ==> r.error == BadSpaces
      ensures r.Ok? ==> fresh(r.value) && r.value.Valid() && r.value.State() == Counts(dogSpaces.value, catSpaces.value)
    {
      var d := Validate(dogSpaces);
      if d.Err? {
        return Err(d.error);
      }
      var c := Validate(catSpaces);
      if c.Err? {
        return Err(c.error);
      }
      var inv := new Inventory(d.value, c.value);
      return Ok(inv);
    }

    /** `reserve(type)`: throws (returns `Fail`) and changes nothing when there is no free space. */
    method Reserve(species: string) returns (r: Outcome)
      requires Valid()
      modifies this
      ensures Valid()
      ensures ReserveCounts(old(State()), species).Ok? ==> r == Pass && State() == ReserveCounts(old(State()), species).value
      ensures ReserveCounts(old(State()), species).Err? ==> r == Fail(ReserveCounts(old(State()), species).error) && State() == old(State())
    {
      if species == "dog" {
        if dog < 1 {
          return Fail(NoDogSpaces);
        }
        dog := dog - 1;
      } else {
        if cat < 1 {
          return Fail(NoCatSpaces);
        }
        cat := cat - 1;
      }
      return Pass;
    }

    /** `release(type)`. */
    method Release(species: string)
      requires Valid()
      modifies this
      ensures Valid()
      ensures State() == ReleaseCounts(old(State()), species)
    {
      if species == "dog" {
        dog := dog + 1;
      } else {
        cat := cat + 1;
      }
    }
  }
}
