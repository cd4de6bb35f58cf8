/**
 * How the pages hand the item dialog's payload to the store: adding an item
 * files it under the page's classification, and editing one passes the
 * payload as a patch in which every form field's key is present, so a blank
 * photo URL (submitted as `undefined`) clears the stored one.
 */
module ItemFlows {
  import opened Types
  import opened ItemForm
  import opened DataContext

  /**
   * What the classification page adds: the submitted values, filed under the
   * page's own classification, with no inline photo data.
   */
  function NewItemData(s: Submission, classificationId: Id): (d: ItemData)
    ensures d.classificationId == classificationId && d.photoData == None
    ensures d.name == s.name && d.photoUrl == s.photoUrl && d.memo == s.memo
    ensures d.purchaseDate == Some(s.purchaseDate) && d.price == Some(s.price)
  {
    ItemData(s.name, classificationId, s.photoUrl, None, Some(s.purchaseDate), Some(s.price), s.memo)
  }

  /** `updateItem(id, itemData)` on the item page: all five form keys are present. */
  function EditPatch(s: Submission): (p: ItemPatch)
    ensures p.name != None && p.photoUrl != None && p.purchaseDate != None && p.price != None && p.memo != None
    ensures p.photoData == None
  {
    ItemPatch(Some(s.name), Some(s.photoUrl), None, Some(Some(s.purchaseDate)), Some(Some(s.price)), Some(s.memo))
  }

  /**
   * Editing through the dialog replaces every field the form shows, clears
   * the photo URL when the submitted one was blank, and keeps the identity
   * fields and the inline photo data.
   */
  lemma EditReplacesFormFields(it: Item, s: Submission)
    ensures var r := Patched(it, EditPatch(s));
      && r.id == it.id && r.createdAt == it.createdAt && r.classificationId == it.classificationId
      && r.photoData == it.photoData
      && r.name == s.name && r.photoUrl == s.photoUrl && r.memo == s.memo
      && r.purchaseDate == Some(s.purchaseDate) && r.price == Some(s.price)
  {
  }
}
