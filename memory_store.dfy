/**
 * What the in-memory repositories share: an append-only list of documents whose
 * `_id`s come from a counter starting at 1. Each repository is this store over its
 * own entity, plus the lookups it offers.
 */
module MemoryStore {
  import opened Text

  /** A stored document: its `_id` and the fields handed to `create`. */
  datatype Doc<T> = Doc(docId: string, body: T)

  function DocIds<T>(store: seq<Doc<T>>): (ids: seq<string>)
    ensures |ids| == |store|
    ensures forall i :: 0 <= i < |store| ==> ids[i] == store[i].docId
  {
    seq(|store|, i requires 0 <= i < |store| => store[i].docId)
  }

  /** The factory's closure: the document list and the `id` counter. */
  class Repo<T> {
    var store: seq<Doc<T>>
    var nextId: nat

    ghost predicate Valid()
      reads this
    {
      nextId == |store| + 1 && Numbered(DocIds(store))
    }

    constructor ()
      ensures Valid() && store == []
    {
      store := [];
      nextId := 1;
    }

    /** `create(x)`: stores `x` under the next numeral `_id` and returns the document. */
    method Create(x: T) returns (doc: Doc<T>)
      requires Valid()
      modifies this
      ensures Valid()
      ensures doc == Doc(NatToString(old(nextId)), x)
      ensures store == old(store) + [doc] && nextId == old(nextId) + 1
      ensures doc.docId !in DocIds(old(store))
    {
      NumberedNextIsFresh(DocIds(store));
      doc := Doc(NatToString(nextId), x);
      assert DocIds(store + [doc]) == DocIds(store) + [doc.docId];
      store := store + [doc];
      nextId := nextId + 1;
    }

    /** `_all()`: every stored document, in creation order, with distinct `_id`s. */
    function All(): (docs: seq<Doc<T>>)
      reads this
      requires Valid()
      ensures |docs| == nextId - 1
      ensures forall i, j :: 0 <= i < j < |docs| ==> docs[i].docId != docs[j].docId
    {
      NumberedDistinct(DocIds(store));
      store
    }
  }
}
