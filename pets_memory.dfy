/**
 * The in-memory pet store: an append-only list of documents whose `_id`s come
 * from a counter starting at 1, and a lookup by owner and pet name.
 */
module PetsMemory {
  import opened Wrappers
  import opened Text
  import opened MemoryStore
  import opened Seqs
  import opened PetModel

  /** A stored pet: its `_id` and the pet's own fields. */
  type PetDoc = Doc<Pet>

  /** The filter of `findOneByOwnerAndName`: strict equality of the owner id and of the name. */
  predicate OwnerAndNameMatch(ownerId: Option<string>, name: Option<string>, d: PetDoc) {
    d.body.customerId == ownerId && Some(d.body.name) == name
  }

  /** `findOneByOwnerAndName(ownerId, name)` over the stored documents: the first match, `None` for null. */
  function FindOneByOwnerAndName(store: seq<PetDoc>, ownerId: Option<string>, name: Option<string>): (r: Option<PetDoc>)
    ensures r.None? <==> forall i :: 0 <= i < |store| ==> !OwnerAndNameMatch(ownerId, name, store[i])
    ensures r.Some? ==> r.value in store && r.value.body.customerId == ownerId && name == Some(r.value.body.name)
    ensures r.Some? ==> exists i :: 0 <= i < |store| && store[i] == r.value && forall j :: 0 <= j < i ==> !OwnerAndNameMatch(ownerId, name, store[j])
    ensures name.None? ==> r.None?
  {
    Find(store, d => OwnerAndNameMatch(ownerId, name, d))
  }

  /**
   * After `create(p)`, the lookup by `p`'s owner and name finds a pet: the
   * earlier one with that owner and name if there was one, the new one otherwise.
   */
  lemma CreatedPetIsFound(store: seq<PetDoc>, doc: PetDoc)
    ensures var before := FindOneByOwnerAndName(store, doc.body.customerId, Some(doc.body.name));
            FindOneByOwnerAndName(store + [doc], doc.body.customerId, Some(doc.body.name)) == if before.Some? then before else Some(doc)
  {
    FindAppend(store, doc, d => OwnerAndNameMatch(doc.body.customerId, Some(doc.body.name), d));
  }

  /** The factory's closure over its list and counter. */
  type PetsRepo = Repo<Pet>
}
