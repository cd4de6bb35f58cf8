# Goods tracker: the inventory store and its two forms, in Dafny

The application keeps an inventory of possessions. A user creates
*classifications* (categories) and files *items* under them. An item has a
name, an optional photo URL or inline photo, an optional purchase date, an
optional price and a memo. Everything lives in one in-memory data context. It
holds two ordered collections. Each operation replaces one or both of them
with a new array computed by `map`, `filter` or an append.

This project models that data context and the two dialogs that feed it:

- `types.dfy`: the entities (`Classification`, `Item`), what `addItem`
  receives (`ItemData`), and the partial update `updateItem` receives
  (`ItemPatch`). A patch field is `None` when its key is absent. For an
  optional field, `Some(None)` means the key is present with the value
  `undefined`, which clears the field.
- `seqs.dfy`: `filter`, `find` and `some` on sequences. `Filter`'s contract
  says it keeps exactly the passing elements, in their relative order; with
  the lemma `FilterMultiplicity` (each passing element keeps its
  multiplicity) that determines the result. `Find` returns the first match
  or `None`.
- `strings.dfy`: `String.prototype.trim` over ECMAScript's whitespace and
  line-terminator characters.
- `data_context.dfy`: the class `DataStore`, whose fields `classifications`
  and `items` are the provider's two state variables. Its methods are the
  mutators and its functions are the three queries. Each mutator is specified
  by the pure function that computes the new sequence. Lemmas state what those
  functions guarantee: identity fields survive updates, cascading delete
  leaves no orphan, deleting is idempotent, and an unknown id changes nothing.
  `Valid()` says ids are unique within each collection. The source gets unique
  ids from `uuidv4`; here every add receives a fresh id from its caller.
- `item_form.dfy`: the item dialog as a class holding `formData` and `errors`.
  It covers the reset effect, `handleChange`, `validateForm` (built one check
  at a time) and `handleSubmit`. The error map is specified by
  `ValidationErrors` and the submitted payload by `Payload`.
- `classification_form.dfy`: the classification dialog as a two-field state
  machine (`name`, `error`).
- `item_flows.dfy`: how the pages pass the item dialog's payload to `addItem`
  and `updateItem`.

Host services are parameters, never modelled:

- `parseFloat` is `parse: string -> Option<real>`, where `None` stands for `NaN`.
- `new Date(s)` is `toDate`.
- `toISOString().split("T")[0]` is `isoDate`.
- `Number.prototype.toString` is `show`.
- The current date string is `today`.
- The clock reading `new Date()` of the store is a `now` parameter.

Timestamps are integers (milliseconds, as a `Date` holds them). Prices are `real`.

Two behaviours of the code worth noting:

- `addClassification` stores the name exactly as given. It does not trim it
  and does not reject a blank one. Only the classification dialog does that.
- `updateItem` keeps `id`, `createdAt` and `classificationId` only because its
  parameter's type leaves those keys out. The object spread would overwrite
  them if a caller's object carried them. The model's `ItemPatch` cannot carry
  them.

## Model

| member | source | states |
|---|---|---|
| `Seqs.Filter` | src/context/DataContext.tsx:142-144 | `filter` keeps exactly the elements satisfying the predicate, never grows, and returns a subsequence of its input (relative order kept) |
| `Seqs.FilterMultiplicity` | src/context/DataContext.tsx:102-106 | every passing element keeps its multiplicity and every failing one is dropped, so with `Filter`'s contract the result is determined |
| `Seqs.Find` | src/context/DataContext.tsx:146-152 | `find` returns `None` exactly when no element matches, otherwise the first matching element |
| `Seqs.Any` | src/context/DataContext.tsx:98 | `some` is true exactly when some element matches |
| `Seqs.FilterKeepsAll` | src/context/DataContext.tsx:100-103 | filtering a collection none of whose elements is excluded gives it back, so skipping the filter when no item matches is the same as filtering |
| `Seqs.FilterIdempotent` | src/context/DataContext.tsx:137-138 | filtering twice by one predicate equals filtering once |
| `Seqs.FilterPreservesUniqueBy` | src/context/DataContext.tsx:102-106 | a filtered collection keeps its ids unique |
| `Seqs.AppendFreshPreservesUniqueBy` | src/context/DataContext.tsx:85 | appending an element with a new id keeps ids unique |
| `Strings.Trim` | src/components/ItemForm.tsx:77 | `trim` yields the empty string exactly when the string is all whitespace, and otherwise a string that neither starts nor ends with whitespace |
| `Strings.TrimShape` | src/components/ItemForm.tsx:101 | `trim` yields the slice of the string between its leading and its trailing whitespace |
| `Strings.TrimIdempotent` | src/components/ClassificationForm.tsx:33 | trimming a trimmed string changes nothing |
| `DataContext.Renamed` | src/context/DataContext.tsx:89-92 | renaming keeps length, order, ids and creation times, and changes the name only of classifications with the given id |
| `DataContext.RenameUnknownIsNoop` | src/context/DataContext.tsx:89-92 | renaming an id that no classification has leaves the collection unchanged |
| `DataContext.RenamePreservesIds` | src/context/DataContext.tsx:89-92 | renaming keeps the set of ids and their uniqueness |
| `DataContext.Stamped` | src/context/DataContext.tsx:112-116 | the new item carries the fresh id and the time, and stripping them gives back exactly the data the caller supplied |
| `DataContext.Patched` | src/context/DataContext.tsx:128 | the spread keeps `id`, `createdAt` and `classificationId`; a field absent from the patch keeps its value and a present one takes the patch's value, `undefined` included |
| `DataContext.PatchIdempotent` | src/context/DataContext.tsx:128 | applying the same patch twice equals applying it once |
| `DataContext.EmptyPatchIsIdentity` | src/context/DataContext.tsx:128 | a patch with no keys leaves the item unchanged |
| `DataContext.ItemsPatched` | src/context/DataContext.tsx:125-129 | updating keeps length, order and every item's identity fields; an item with the given id becomes that item with the patch spread over it, and items with other ids are unchanged |
| `DataContext.PatchUnknownIsNoop` | src/context/DataContext.tsx:125-129 | updating an id that no item has leaves the items unchanged |
| `DataContext.PatchPreservesReferences` | src/context/DataContext.tsx:125-129 | updating keeps item ids unique and keeps every item under an existing classification if all were before |
| `DataContext.CascadePreservesReferences` | src/context/DataContext.tsx:96-106 | if every item referred to an existing classification before the cascading delete, every remaining item still does |
| `DataContext.CascadeThenQueryIsEmpty` | src/context/DataContext.tsx:102 | after the cascade, the items of the deleted classification are the empty sequence, whatever their number before |
| `DataContext.DeleteItemIdempotent` | src/context/DataContext.tsx:137-138 | deleting an item twice equals deleting it once |
| `DataContext.DeleteUnknownItemIsNoop` | src/context/DataContext.tsx:137-138 | deleting an id that no item has leaves the items unchanged |
| `DataContext.DataStore.constructor` | src/context/DataContext.tsx:27-28 | the store starts with both collections empty |
| `DataContext.DataStore.GetItemsByClassification` | src/context/DataContext.tsx:142-144 | returns exactly the items with that classification id, each as often as stored, in collection order |
| `DataContext.DataStore.GetClassification` | src/context/DataContext.tsx:146-148 | returns the first classification with that id, or `None` when there is none; never fails; in a store with unique ids it is the only one with that id |
| `DataContext.DataStore.GetItem` | src/context/DataContext.tsx:150-152 | returns the first item with that id, or `None` when there is none; never fails; in a store with unique ids it is the only one with that id |
| `DataContext.DataStore.AddClassification` | src/context/DataContext.tsx:79-87 | appends exactly one classification with the given name verbatim, the fresh id and the time; earlier ones and all items are unchanged |
| `DataContext.DataStore.UpdateClassification` | src/context/DataContext.tsx:89-94 | the classifications become their renamed version; items are unchanged |
| `DataContext.DataStore.DeleteClassification` | src/context/DataContext.tsx:96-108 | no classification and no item with that id remains, everything else survives in order, and querying the classification's items yields the empty sequence |
| `DataContext.DataStore.AddItem` | src/context/DataContext.tsx:110-123 | appends one item with the fresh id carrying the given fields; classifications and earlier items are unchanged; no item is left dangling exactly when none was before and the classification exists |
| `DataContext.DataStore.UpdateItem` | src/context/DataContext.tsx:125-135 | the items become their patched version; classifications are unchanged |
| `DataContext.DataStore.DeleteItem` | src/context/DataContext.tsx:137-140 | keeps exactly the items with another id, in order; classifications are unchanged |
| `ItemForm.ValidationErrors` | src/components/ItemForm.tsx:74-93 | name error exactly when the name is blank; date error exactly when the date is empty; price error exactly when the price is empty or unusable, "required" and "valid number" being exclusive; no other field errs; no errors exactly when all checks pass |
| `ItemForm.Payload` | src/components/ItemForm.tsx:100-106 | the submitted name and memo are the trimmed inputs (the name non-empty); the photo URL is absent exactly when its input is blank and otherwise is the trimmed input; the date is the converted input; the price is the parsed, non-negative value |
| `ItemForm.ItemForm.constructor` | src/components/ItemForm.tsx:31-39 | the form starts empty except for today's date, with no errors |
| `ItemForm.ItemForm.Reset` | src/components/ItemForm.tsx:41-62 | without initial values the inputs reset to empty (today's date); with them, a missing name, photo URL, price or memo becomes `""` and a missing date becomes today; errors are cleared |
| `ItemForm.ItemForm.HandleChange` | src/components/ItemForm.tsx:64-72 | only the edited input changes; its error, if shown, is blanked; other errors keep their messages and no key is added or removed |
| `ItemForm.ItemForm.ValidateForm` | src/components/ItemForm.tsx:74-93 | the errors become `ValidationErrors` of the data, and the form is valid exactly when the error map is empty |
| `ItemForm.ItemForm.HandleSubmit` | src/components/ItemForm.tsx:95-109 | an invalid form submits nothing; a valid one submits `Payload` of the data |
| `ClassificationForm.ClassificationForm.constructor` | src/components/ClassificationForm.tsx:22-23 | the name starts as the initial value, with no error |
| `ClassificationForm.ClassificationForm.HandleSubmit` | src/components/ClassificationForm.tsx:25-37 | a blank name sets "Classification name is required" and submits nothing; otherwise the trimmed name is submitted, the input emptied and the error cleared |
| `ClassificationForm.ClassificationForm.HandleChange` | src/components/ClassificationForm.tsx:50-53 | the name becomes the typed value; a non-blank value clears the error and a blank one leaves it as it was |
| `ClassificationForm.SubmittedNameIsTrimmed` | src/components/ClassificationForm.tsx:33 | a submitted name is non-empty, has no leading or trailing whitespace, and trimming it again changes nothing |
| `ItemFlows.NewItemData` | src/pages/ClassificationDetail.tsx:35-46 | an added item carries the submitted name, photo URL, date, price and memo, is filed under the page's classification, and has no inline photo |
| `ItemFlows.EditPatch` | src/pages/ItemDetail.tsx:58-66 | an edit patch has all five form keys present and no photo-data key |
| `ItemFlows.EditReplacesFormFields` | src/pages/ItemDetail.tsx:58-66 | an edit replaces every field the form shows, clears the photo URL when the submitted one was blank, and keeps the identity fields and the inline photo |

## Left out

- Persistence: loading both collections from `localStorage` with `JSON.parse` and date revival, and saving them after each change. This is I/O. On load, a missing purchase date becomes `null`, which is `None` here.
- The toast notifications, `console.error`, and the `try`/`catch` around `addItem` and `updateItem`. Nothing the model computes can throw.
- `uuidv4`: replaced by a caller-supplied id, with a precondition that no element already has it.
- React plumbing. State updates are batched and effects are scheduled; each operation here is one sequential transition. Callbacks read a snapshot of the state from the render (a stale closure), and the model ignores this.
- The classification dialog reads `initialValue` only when it is mounted, as `useState` does. Later changes of the prop are not modelled, as in the source.
- Floating point. `parseFloat` accepts a numeric prefix and may yield `Infinity`. Prices are reals, and what the parser returns is up to the `parse` parameter.
- Dates. `new Date(s)` may be an invalid date, and `toISOString` may throw on one. Neither is modelled.
- `Number.prototype.toString` and `Intl` formatting are left out.
- `onClose` after a submit is left out. It only closes the dialog.
- `ItemPatch` cannot carry `id`, `createdAt` or `classificationId`, which the TypeScript type excludes. It also cannot set `name` or `memo` to `undefined`. A JavaScript object that did either at run time is not modelled.
- `DataContext.DataStore.AddClassification`, `AddItem`: the fresh-id precondition stands in for `uuidv4`'s uniqueness, which the source assumes.
- Export: src/types/index.ts:24-27 declares `ExportOptions`, but no file implements an export; nothing of it is modelled.
- The pages and presentational components (lists, cards, header, dialogs' rendering). The only part kept is how the item dialog's payload reaches `addItem` and `updateItem`.
- `capacitor.config.ts`, which is build configuration.
