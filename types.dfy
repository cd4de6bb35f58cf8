/**
 * The two entities of the inventory store, a classification (a named
 * category) and an item filed under one, together with the shapes the store
 * receives when an item is created or partially updated.
 */
module Types {

  /** JavaScript's `undefined` / `null` for an optional field. */
  datatype Option<+T> = None | Some(value: T) {
    function GetOr(default: T): T {
      match this
      case Some(v) => v
      case None => default
    }
  }

  /** An opaque identifier (a UUID string in the application). */
  type Id = string

  /** A point in time, as a JavaScript `Date` holds it: milliseconds since the epoch. */
  type Timestamp = int

  datatype Classification = Classification(id: Id, name: string, createdAt: Timestamp)

  datatype Item = Item(
    id: Id,
    name: string,
    classificationId: Id,
    photoUrl: Option<string>,
    photoData: Option<string>,
    purchaseDate: Option<Timestamp>,
    price: Option<real>,
    memo: string,
    createdAt: Timestamp)

  /** What `addItem` receives: an item without its `id` and `createdAt`. */
  datatype ItemData = ItemData(
    name: string,
    classificationId: Id,
    photoUrl: Option<string>,
    photoData: Option<string>,
    purchaseDate: Option<Timestamp>,
    price: Option<real>,
    memo: string)

  /**
   * What `updateItem` receives: a partial item without `id`, `createdAt` and
   * `classificationId`. A field is `None` when its key is absent from the
   * patch; an optional field is `Some(None)` when its key is present with the
   * value `undefined`, which clears it.
   */
  datatype ItemPatch = ItemPatch(
    name: Option<string>,
    photoUrl: Option<Option<string>>,
    photoData: Option<Option<string>>,
    purchaseDate: Option<Option<Timestamp>>,
    price: Option<Option<real>>,
    memo: Option<string>)

  /** The patch with no keys at all. */
  const EmptyPatch := ItemPatch(None, None, None, None, None, None)
}
