/**
 * The pet value object: a type that is exactly `"dog"` or `"cat"`, a non-empty
 * trimmed name, a non-negative integer age and an optional owner id. The
 * constructor validates type, then name, then age, and throws at the first failure.
 */
module PetModel {
  import opened Wrappers
  import opened Text

  const BadType := "type must be dog or cat"
  const NameRequired := "name required"
  const AgeNotInteger := "age must be an integer"
  const AgeNegative := "age must be >= 0"

  datatype Pet = Pet(species: string, name: string, age: nat, customerId: Option<string>)

  /** The two types a pet may have. */
  predicate KnownSpecies(t: string) {
    t == "dog" || t == "cat"
  }

  /** `Pet.validateType(v)`, `None` being null or undefined (read as the empty string). */
  function ValidateType(v: Option<string>): (r: Result<string>)
    ensures r.Ok? <==> KnownSpecies(ToLower(Trim(v.GetOr(""))))
    ensures r.Ok? ==> KnownSpecies(r.value) && r.value == ToLower(Trim(v.GetOr("")))
    ensures r.Err? ==> r.error == BadType
  {
    var t := ToLower(Trim(v.GetOr("")));
    if t != "dog" && t != "cat" then Err(BadType) else Ok(t)
  }

  /**
   * Surrounding white space and letter case do not matter: any casing of `dog`
   * or `cat`, padded with white space, is accepted as the lower-case word.
   */
  lemma ValidateTypeIgnoresPaddingAndCase(pre: string, word: string, post: string)
    requires AllSpace(pre) && AllSpace(post)
    requires KnownSpecies(ToLower(word))
    ensures ValidateType(Some(pre + word + post)) == Ok(ToLower(word))
  {
    var w := ToLower(word);
    LowerCharKeepsSpace(word[0]);
    LowerCharKeepsSpace(word[|word| - 1]);
    assert w[0] == LowerChar(word[0]) && w[|w| - 1] == LowerChar(word[|word| - 1]);
    assert Trimmed(word);
    TrimPadded(pre, word, post);
  }

  /** The two type words are already trimmed and lower case. */
  lemma KnownSpeciesNormal(t: string)
    requires KnownSpecies(t)
    ensures Trim(t) == t && ToLower(t) == t
  {
    assert |t| == 3 && 'a' <= t[0] <= 'z' && 'a' <= t[1] <= 'z' && 'a' <= t[2] <= 'z';
    assert Trimmed(t);
    TrimOfTrimmed(t);
    ToLowerOfLower(t);
  }

  /** A validated type validates to itself. */
  lemma ValidateTypeIdempotent(v: Option<string>)
    requires ValidateType(v).Ok?
    ensures ValidateType(Some(ValidateType(v).value)) == ValidateType(v)
  {
    var t := Trim(v.GetOr(""));
    ToLowerKeepsTrimmed(t);
    TrimOfTrimmed(ToLower(t));
    ToLowerIdempotent(t);
  }

  /** `Pet.validateName(v)`, `None` being any value that is not a string. */
  function ValidateName(v: Option<string>): (r: Result<string>)
    ensures r.Err? <==> v.None? || AllSpace(v.value)
    ensures r.Err? ==> r.error == NameRequired
    ensures r.Ok? ==> r.value == Trim(v.value) && r.value != [] && Trimmed(r.value)
  {
    match v
    case None => Err(NameRequired)
    case Some(s) =>
      var name := Trim(s);
      if name == [] then Err(NameRequired) else Ok(name)
  }

  /** A name keeps its text: white space around it is dropped and nothing else. */
  lemma ValidateNameIgnoresPadding(pre: string, name: string, post: string)
    requires AllSpace(pre) && AllSpace(post)
    requires name != [] && Trimmed(name)
    ensures ValidateName(Some(pre + name + post)) == Ok(name)
  {
    TrimPadded(pre, name, post);
  }

  /** A validated name validates to itself. */
  lemma ValidateNameIdempotent(v: Option<string>)
    requires ValidateName(v).Ok?
    ensures ValidateName(Some(ValidateName(v).value)) == ValidateName(v)
  {
    TrimIdempotent(v.value);
  }

  /** `Pet.validateAge(v)`, `None` being a value whose `Number(v)` is not an integer. */
  function ValidateAge(v: Option<int>): (r: Result<nat>)
    ensures r.Ok? <==> v.Some? && v.value >= 0
    ensures r.Ok? ==> r.value == v.value
    ensures v.None? ==> r == Err(AgeNotInteger)
    ensures v.Some? && v.value < 0 ==> r == Err(AgeNegative)
  {
    match v
    case None => Err(AgeNotInteger)
    case Some(n) => if n < 0 then Err(AgeNegative) else Ok(n)
  }

  /** `new Pet({type, name, age, customerId})`; an omitted owner is null. */
  function NewPet(species: Option<string>, name: Option<string>, age: Option<int>, customerId: Option<string> := None): (r: Result<Pet>)
    ensures r.Ok? <==> ValidateType(species).Ok? && ValidateName(name).Ok? && ValidateAge(age).Ok?
    ensures ValidateType(species).Err? ==> r == Err(BadType)
    ensures ValidateType(species).Ok? && ValidateName(name).Err? ==> r == Err(NameRequired)
    ensures ValidateType(species).Ok? && ValidateName(name).Ok? && ValidateAge(age).Err? ==> r == Err(ValidateAge(age).error)
    ensures r.Ok? ==> KnownSpecies(r.value.species) && r.value.name != [] && Trimmed(r.value.name)
    ensures r.Ok? ==> r.value.species == ToLower(Trim(species.GetOr(""))) && r.value.name == Trim(name.value) && r.value.age == age.value && r.value.customerId == customerId
  {
    match ValidateType(species)
    case Err(e) => Err(e)
    case Ok(t) =>
      match ValidateName(name)
      case Err(e) => Err(e)
      case Ok(n) =>
        match ValidateAge(age)
        case Err(e) => Err(e)
        case Ok(a) => Ok(Pet(t, n, a, customerId))
  }

  /** A pet built from a pet's own fields is that pet: the constructor is a normal form. */
  lemma NewPetIdempotent(p: Pet)
    requires KnownSpecies(p.species) && p.name != [] && Trimmed(p.name)
    ensures NewPet(Some(p.species), Some(p.name), Some(p.age), p.customerId) == Ok(p)
  {
    KnownSpeciesNormal(p.species);
    assert ValidateType(Some(p.species)) == Ok(p.species);
    TrimOfTrimmed(p.name);
    assert ValidateName(Some(p.name)) == Ok(p.name);
    assert ValidateAge(Some(p.age)) == Ok(p.age);
  }
}
