/**
 * The in-memory repository behind the application's data context: two
 * ordered collections, classifications and items, and the operations that
 * replace them (add, rename, cascading delete, partial update, delete) or
 * query them (items of a classification, lookup by id).
 *
 * Each mutator of the source computes a new array from the old one with
 * `map`, `filter` or an append and stores it back; here each is a method of
 * `DataStore` that reassigns the corresponding field, specified by the pure
 * function that computes the new sequence.
 */
module DataContext {
  import opened Types
  import opened Seqs

  // ---------------------------------------------------------------------------
  // Keys and the predicates the store filters and searches by

  function ClassificationKey(c: Classification): Id { c.id }

  function ItemKey(it: Item): Id { it.id }

  function ClassificationIdIs(id: Id): Classification -> bool { (c: Classification) => c.id == id }

  function ClassificationIdIsNot(id: Id): Classification -> bool { (c: Classification) => c.id != id }

  function ItemIdIs(id: Id): Item -> bool { (it: Item) => it.id == id }

  function ItemIdIsNot(id: Id): Item -> bool { (it: Item) => it.id != id }

  function InClassification(cid: Id): Item -> bool { (it: Item) => it.classificationId == cid }

  function NotInClassification(cid: Id): Item -> bool { (it: Item) => it.classificationId != cid }

  /** The ids of all classifications. */
  ghost function ClassificationIds(cs: seq<Classification>): set<Id> {
    set c | c in cs :: c.id
  }

  /** Every item is filed under a classification that exists. */
  ghost predicate NoDanglingItems(cs: seq<Classification>, items: seq<Item>) {
    forall it :: it in items ==> it.classificationId in ClassificationIds(cs)
  }

  // ---------------------------------------------------------------------------
  // The new collections each mutator computes

  /**
   * What `updateClassification` stores: the same classifications in the
   * same order, with the name of those whose id is `id` replaced; ids and
   * creation times are untouched.
   */
  function Renamed(cs: seq<Classification>, id: Id, name: string): (r: seq<Classification>)
    ensures |r| == |cs|
    ensures forall k :: 0 <= k < |r| ==>
      && r[k].id == cs[k].id
      && r[k].createdAt == cs[k].createdAt
      && r[k].name == (if cs[k].id == id then name else cs[k].name)
  {
    seq(|cs|, k requires 0 <= k < |cs| => if cs[k].id == id then cs[k].(name := name) else cs[k])
  }

  /** The item `addItem` appends: the supplied data with a new id and creation time. */
  function Stamped(data: ItemData, id: Id, createdAt: Timestamp): (r: Item)
    ensures r.id == id && r.createdAt == createdAt
    ensures Unstamped(r) == data
  {
    Item(id, data.name, data.classificationId, data.photoUrl, data.photoData,
         data.purchaseDate, data.price, data.memo, createdAt)
  }

  /** An item without its `id` and `createdAt`: what the caller of `addItem` supplied. */
  function Unstamped(it: Item): ItemData {
    ItemData(it.name, it.classificationId, it.photoUrl, it.photoData, it.purchaseDate, it.price, it.memo)
  }

  /**
   * An item with a patch spread over it: a field whose key is in the patch takes the
   * patch's value (an optional field may so be cleared), every other field
   * keeps its value, and `id`, `createdAt` and `classificationId`, which a
   * patch cannot carry, never change.
   */
  function Patched(it: Item, p: ItemPatch): (r: Item)
    ensures r.id == it.id && r.createdAt == it.createdAt && r.classificationId == it.classificationId
    ensures p.name == None ==> r.name == it.name
    ensures p.name != None ==> r.name == p.name.value
    ensures p.photoUrl == None ==> r.photoUrl == it.photoUrl
    ensures p.photoUrl != None ==> r.photoUrl == p.photoUrl.value
    ensures p.photoData == None ==> r.photoData == it.photoData
    ensures p.photoData != None ==> r.photoData == p.photoData.value
    ensures p.purchaseDate == None ==> r.purchaseDate == it.purchaseDate
    ensures p.purchaseDate != None ==> r.purchaseDate == p.purchaseDate.value
    ensures p.price == None ==> r.price == it.price
    ensures p.price != None ==> r.price == p.price.value
    ensures p.memo == None ==> r.memo == it.memo
    ensures p.memo != None ==> r.memo == p.memo.value
  {
    it.(name := p.name.GetOr(it.name),
        photoUrl := p.photoUrl.GetOr(it.photoUrl),
        photoData := p.photoData.GetOr(it.photoData),
        purchaseDate := p.purchaseDate.GetOr(it.purchaseDate),
        price := p.price.GetOr(it.price),
        memo := p.memo.GetOr(it.memo))
  }

  /**
   * What `updateItem` stores: the same items in the same order; those with
   * id `id` are patched, all others are unchanged.
   */
  function ItemsPatched(items: seq<Item>, id: Id, p: ItemPatch): (r: seq<Item>)
    ensures |r| == |items|
    ensures forall k :: 0 <= k < |r| ==>
      && r[k].id == items[k].id
      && r[k].createdAt == items[k].createdAt
      && r[k].classificationId == items[k].classificationId
    ensures forall k :: 0 <= k < |r| && items[k].id != id ==> r[k] == items[k]
    ensures forall k :: 0 <= k < |r| && items[k].id == id ==> r[k] == Patched(items[k], p)
  {
    seq(|items|, k requires 0 <= k < |items| => if items[k].id == id then Patched(items[k], p) else items[k])
  }

  // ---------------------------------------------------------------------------
  // Properties of those computations

  /** Renaming a classification that does not exist changes nothing. */
  lemma RenameUnknownIsNoop(cs: seq<Classification>, id: Id, name: string)
    requires forall c :: c in cs ==> c.id != id
    ensures Renamed(cs, id, name) == cs
  {
    var r := Renamed(cs, id, name);
    forall k | 0 <= k < |cs| ensures r[k] == cs[k] {
      assert cs[k] in cs;
    }
  }

  /** Renaming leaves the set of ids, and so their uniqueness, as it was. */
  lemma RenamePreservesIds(cs: seq<Classification>, id: Id, name: string)
    requires UniqueBy(cs, ClassificationKey)
    ensures UniqueBy(Renamed(cs, id, name), ClassificationKey)
    ensures ClassificationIds(Renamed(cs, id, name)) == ClassificationIds(cs)
  {
    var r := Renamed(cs, id, name);
    forall x | x in ClassificationIds(r) ensures x in ClassificationIds(cs) {
      var c :| c in r && c.id == x;
      var k :| 0 <= k < |r| && r[k] == c;
      assert cs[k] in cs;
    }
    forall x | x in ClassificationIds(cs) ensures x in ClassificationIds(r) {
      var c :| c in cs && c.id == x;
      var k :| 0 <= k < |cs| && cs[k] == c;
      assert r[k] in r;
    }
  }

  /** Applying the same patch twice is the same as applying it once. */
  lemma PatchIdempotent(it: Item, p: ItemPatch)
    ensures Patched(Patched(it, p), p) == Patched(it, p)
  {
  }

  /** A patch with no keys leaves the item as it is. */
  lemma EmptyPatchIsIdentity(it: Item)
    ensures Patched(it, EmptyPatch) == it
  {
  }

  /** Patching an item that does not exist changes nothing. */
  lemma PatchUnknownIsNoop(items: seq<Item>, id: Id, p: ItemPatch)
    requires forall it :: it in items ==> it.id != id
    ensures ItemsPatched(items, id, p) == items
  {
    var r := ItemsPatched(items, id, p);
    forall k | 0 <= k < |items| ensures r[k] == items[k] {
      assert items[k] in items;
    }
  }

  /** Patching keeps item ids unique and every item under the classification it had. */
  lemma PatchPreservesReferences(cs: seq<Classification>, items: seq<Item>, id: Id, p: ItemPatch)
    ensures UniqueBy(items, ItemKey) ==> UniqueBy(ItemsPatched(items, id, p), ItemKey)
    ensures NoDanglingItems(cs, items) ==> NoDanglingItems(cs, ItemsPatched(items, id, p))
  {
    var r := ItemsPatched(items, id, p);
    if NoDanglingItems(cs, items) {
      forall it | it in r ensures it.classificationId in ClassificationIds(cs) {
        var k :| 0 <= k < |r| && r[k] == it;
        assert items[k] in items;
      }
    }
  }

  /**
   * The cascade of `deleteClassification` leaves no item of the deleted
   * classification behind, and if every item referred to an existing
   * classification before, every remaining item still does.
   */
  lemma {:induction false} CascadePreservesReferences(cs: seq<Classification>, items: seq<Item>, id: Id)
    requires NoDanglingItems(cs, items)
    ensures NoDanglingItems(Filter(cs, ClassificationIdIsNot(id)), Filter(items, NotInClassification(id)))
  {
    var cs', items' := Filter(cs, ClassificationIdIsNot(id)), Filter(items, NotInClassification(id));
    forall it | it in items' ensures it.classificationId in ClassificationIds(cs') {
      assert it in items && it.classificationId != id;
      var c :| c in cs && c.id == it.classificationId;
      assert ClassificationIdIsNot(id)(c);
      assert c in cs';
    }
  }

  /** Once the items of a classification are cascaded away, querying it yields nothing. */
  lemma CascadeThenQueryIsEmpty(items: seq<Item>, id: Id)
    ensures Filter(Filter(items, NotInClassification(id)), InClassification(id)) == []
  {
    FilterDropsAll(Filter(items, NotInClassification(id)), InClassification(id));
  }

  /** Deleting an item twice is the same as deleting it once. */
  lemma DeleteItemIdempotent(items: seq<Item>, id: Id)
    ensures Filter(Filter(items, ItemIdIsNot(id)), ItemIdIsNot(id)) == Filter(items, ItemIdIsNot(id))
  {
    FilterIdempotent(items, ItemIdIsNot(id));
  }

  /** Deleting an item that does not exist changes nothing. */
  lemma DeleteUnknownItemIsNoop(items: seq<Item>, id: Id)
    requires forall it :: it in items ==> it.id != id
    ensures Filter(items, ItemIdIsNot(id)) == items
  {
    FilterKeepsAll(items, ItemIdIsNot(id));
  }

  // ---------------------------------------------------------------------------
  // The store

  /**
   * The provider's two state fields. `Valid` is the store's invariant: ids
   * are unique within each collection (the source draws them from `uuidv4`;
   * here each add receives a fresh id from its caller). Items may refer to
   * classifications that do not exist, since `addItem` does not check.
   */
  class DataStore {
    var classifications: seq<Classification>
    var items: seq<Item>

    ghost predicate Valid()
      reads this
    {
      UniqueBy(classifications, ClassificationKey) && UniqueBy(items, ItemKey)
    }

    /** The provider starts with both collections empty. */
    constructor ()
      ensures Valid()
      ensures classifications == [] && items == []
    {
      classifications := [];
      items := [];
    }

    /** `getItemsByClassification`: the items filed under `cid`, in collection order. */
    function GetItemsByClassification(cid: Id): (r: seq<Item>)
      reads this
      ensures forall it :: it in r <==> it in items && it.classificationId == cid
      ensures forall it :: multiset(r)[it] == if it.classificationId == cid then multiset(items)[it] else 0
      ensures IsSubsequence(r, items)
    {
      FilterMultiplicity(items, InClassification(cid));
      Filter(items, InClassification(cid))
    }

    /**
     * `getClassification`: the first classification with that id, or `None`;
     * never fails. In a valid store it is the only one with that id.
     */
    function GetClassification(id: Id): (r: Option<Classification>)
      reads this
      ensures r.None? <==> forall c :: c in classifications ==> c.id != id
      ensures r.Some? ==> r.value in classifications && r.value.id == id
      ensures r.Some? ==> exists k :: 0 <= k < |classifications| && classifications[k] == r.value &&
                                       forall j :: 0 <= j < k ==> classifications[j].id != id
      ensures Valid() && r.Some? ==>
        forall k :: 0 <= k < |classifications| && classifications[k].id == id ==> classifications[k] == r.value
    {
      Find(classifications, ClassificationIdIs(id))
    }

    /**
     * `getItem`: the first item with that id, or `None`; never fails. In a
     * valid store it is the only one with that id.
     */
    function GetItem(id: Id): (r: Option<Item>)
      reads this
      ensures r.None? <==> forall it :: it in items ==> it.id != id
      ensures r.Some? ==> r.value in items && r.value.id == id
      ensures r.Some? ==> exists k :: 0 <= k < |items| && items[k] == r.value &&
                                       forall j :: 0 <= j < k ==> items[j].id != id
      ensures Valid() && r.Some? ==> forall k :: 0 <= k < |items| && items[k].id == id ==> items[k] == r.value
    {
      Find(items, ItemIdIs(id))
    }

    /**
     * `addClassification`: appends one classification carrying `name` as
     * given (the store does not trim), the fresh id and the current time.
     */
    method AddClassification(name: string, freshId: Id, now: Timestamp)
      requires Valid()
      requires forall c :: c in classifications ==> c.id != freshId
      modifies this
      ensures Valid()
      ensures classifications == old(classifications) + [Classification(freshId, name, now)]
      ensures items == old(items)
      ensures old(NoDanglingItems(classifications, items)) ==> NoDanglingItems(classifications, items)
    {
      var c := Classification(freshId, name, now);
      AppendFreshPreservesUniqueBy(classifications, c, ClassificationKey);
      classifications := classifications + [c];
    }

    /** `updateClassification`: renames the classification with that id, if any. */
    method UpdateClassification(id: Id, name: string)
      requires Valid()
      modifies this
      ensures Valid()
      ensures classifications == Renamed(old(classifications), id, name)
      ensures items == old(items)
      ensures old(NoDanglingItems(classifications, items)) ==> NoDanglingItems(classifications, items)
    {
      RenamePreservesIds(classifications, id, name);
      classifications := Renamed(classifications, id, name);
    }

    /**
     * `deleteClassification`: removes the classification and, when any exist,
     * every item filed under it. Everything else survives in its order.
     */
    method DeleteClassification(id: Id)
      requires Valid()
      modifies this
      ensures Valid()
      ensures classifications == Filter(old(classifications), ClassificationIdIsNot(id))
      ensures items == Filter(old(items), NotInClassification(id))
      ensures forall c :: c in classifications ==> c.id != id
      ensures forall it :: it in items ==> it.classificationId != id
      ensures GetItemsByClassification(id) == []
      ensures old(NoDanglingItems(classifications, items)) ==> NoDanglingItems(classifications, items)
    {
      ghost var cs0, items0 := classifications, items;
      var hasItems := Any(items, InClassification(id));
      if hasItems {
        items := Filter(items, NotInClassification(id));
      } else {
        FilterKeepsAll(items, NotInClassification(id));
      }
      FilterPreservesUniqueBy(items0, NotInClassification(id), ItemKey);
      FilterPreservesUniqueBy(cs0, ClassificationIdIsNot(id), ClassificationKey);
      classifications := Filter(classifications, ClassificationIdIsNot(id));
      CascadeThenQueryIsEmpty(items0, id);
      if NoDanglingItems(cs0, items0) {
        CascadePreservesReferences(cs0, items0, id);
      }
    }

    /**
     * `addItem`: appends one item carrying the given fields, the fresh id and
     * the current time. The classification it names need not exist.
     */
    method AddItem(data: ItemData, freshId: Id, now: Timestamp)
      requires Valid()
      requires forall it :: it in items ==> it.id != freshId
      modifies this
      ensures Valid()
      ensures items == old(items) + [Stamped(data, freshId, now)]
      ensures classifications == old(classifications)
      ensures NoDanglingItems(classifications, items) <==>
        old(NoDanglingItems(classifications, items)) && data.classificationId in ClassificationIds(classifications)
    {
      var it := Stamped(data, freshId, now);
      AppendFreshPreservesUniqueBy(items, it, ItemKey);
      assert it in items + [it];
      items := items + [it];
    }

    /** `updateItem`: merges the patch into the item with that id, if any. */
    method UpdateItem(id: Id, patch: ItemPatch)
      requires Valid()
      modifies this
      ensures Valid()
      ensures items == ItemsPatched(old(items), id, patch)
      ensures classifications == old(classifications)
      ensures old(NoDanglingItems(classifications, items)) ==> NoDanglingItems(classifications, items)
    {
      PatchPreservesReferences(classifications, items, id, patch);
      items := ItemsPatched(items, id, patch);
    }

    /** `deleteItem`: removes the item with that id; everything else is kept in order. */
    method DeleteItem(id: Id)
      requires Valid()
      modifies this
      ensures Valid()
      ensures items == Filter(old(items), ItemIdIsNot(id))
      ensures forall it :: it in items <==> it in old(items) && it.id != id
      ensures classifications == old(classifications)
      ensures old(NoDanglingItems(classifications, items)) ==> NoDanglingItems(classifications, items)
    {
      FilterPreservesUniqueBy(items, ItemIdIsNot(id), ItemKey);
      items := Filter(items, ItemIdIsNot(id));
    }
  }
}
