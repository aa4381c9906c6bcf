# Billing store model

A Dafny model of the data core of a small bill/invoice editor. The original
is a Flask application over SQLAlchemy (`billing_app_1.py`). Here its three
tables — bills, bill items and the product catalog — are an in-memory store
class. Its route handlers `init_db`, `index`, `add_item`, `new_bill` and
`update_bill` are methods on that store. Each handler behaves as one
database transaction: either all of its writes happen or, when a constraint
fails, none of them does.

Files:

- `wrappers.dfy` — `Option`, used for a form field or JSON key that is missing or does not parse.
- `decimal.dfy` — `NatToString`, the `str(id)` that produces display ids, and its inverse `DigitsValue`.
- `billing.dfy` — the rows (`Bill`, `Item`, `Product`) and the patchable fields as an enumeration (`Field`), with the pure rules: the field allow-list, item validation, the per-bill item projection, the total, the display-id backfill and the seed catalog.
- `store.dfy` — the `Store` class and the five handlers. The class holds a map of bills, the highest bill id in use, the next value of the bill id sequence, a sequence of items, the next value of the item id sequence and a map of products.

The store behaves as the PostgreSQL database the application is deployed against. Three consequences:

- A failed statement rolls back all of its transaction's writes.
- An id drawn from a sequence stays used even when its INSERT then fails.
- INTEGER columns hold 32 bits.

The store's invariant (`StoreInvariant`) contains these facts:

- Bill ids and item ids come from sequences that start at 1 and stay within the INTEGER range.
- The recorded latest bill has the highest id in use.
- Display ids are unique. This is the unique index on `bill_display_id`.
- Every stored item was created with validated input, units within the INTEGER range and `amount == units * rate`.
- Every stored item references an existing bill.
- Item ids increase in insertion order.

Every handler preserves the invariant.

`new_bill` (lines 181-187) sets the display id to `str(id)` in the transaction that creates the bill. `index` (lines 116-120) still backfills the display id of the current bill when it is empty.

`NewBill`'s contract shows two ways a new bill can fail to be created:

- A client has patched some bill's display id to the empty string. The new row is first inserted with an empty display id, so every `new_bill` fails until that display id is changed.
- A client has patched some bill's display id to the decimal string of the next id. That attempt fails and uses up the id, so the next attempt is made with the following id.

## Model

| member | source | states |
|---|---|---|
| `Decimal.NatToString` | billing_app_1.py:185 | `str(n)` is a non-empty string of decimal digits with no leading zero except for "0" itself |
| `Decimal.DigitsValueOfNatToString` | billing_app_1.py:185 | reading back the decimal rendering of n gives n |
| `Decimal.NatToStringOfDigitsValue` | billing_app_1.py:185 | rendering the value of any canonical digit string gives that string back |
| `Decimal.NatToStringInjective` | billing_app_1.py:42 | two ids have the same decimal rendering exactly when they are equal |
| `Billing.ParseField` | billing_app_1.py:198-200 | a field name is accepted exactly when it is one of the six allowed column names |
| `Billing.FieldName` | billing_app_1.py:198 | every patchable field has an allowed column name that parses back to that field |
| `Billing.ParseFieldOnlyName` | billing_app_1.py:198-199 | only a field's own column name selects it |
| `Billing.SetField` | billing_app_1.py:212 | `setattr` gives the named column the new value and leaves every other column as it was |
| `Billing.ItemsOf` | billing_app_1.py:123-126 | a bill's item list holds exactly the stored items with that bill id, and is empty when none references the bill |
| `Billing.ItemsOfAppend` | billing_app_1.py:165-166 | appending an item adds it at the end of its own bill's list and changes no other bill's list |
| `Billing.TotalAppend` | billing_app_1.py:139 | the total of two runs of items is the sum of their totals |
| `Billing.TotalPermutation` | billing_app_1.py:139 | the total of the stored amounts does not depend on the order of the items |
| `Billing.TotalNonNegative` | billing_app_1.py:139 | over items stored by `add_item` the total is never negative |
| `Billing.ValidItemInput` | billing_app_1.py:151 | accepted input has a non-empty name and an amount that is not negative |
| `Billing.Amount` | billing_app_1.py:154 | the amount `units * rate` is never negative when neither factor is |
| `Billing.Total` | billing_app_1.py:139 | no items total 0, and a single item totals its own amount |
| `Billing.DisplayIdsUnique` | billing_app_1.py:42 | the unique index on `bill_display_id` holds exactly when no bill's display id is held by another bill |
| `Billing.Backfilled` | billing_app_1.py:116-117 | an empty display id becomes `str(id)`, so after the backfill the display id is non-empty; a non-empty display id is kept; no other column changes |
| `Billing.BackfillIdempotent` | billing_app_1.py:116-120 | a second backfill writes nothing |
| `Billing.SeedProducts` | billing_app_1.py:76-82 | the seed catalog has exactly the codes 0000 to 0004, with 0000 the "Custom Item" at rate 0, and every entry has a name and a non-negative rate |
| `Billing.DefaultDisplayIdsNeverClash` | billing_app_1.py:181-187 | while every bill still shows `str(its id)`, creating a bill with a fresh id can hit neither the empty display id nor `str(id)` in the unique index |
| `BillingStore.StatusCode` | billing_app_1.py:198-220 | success answers 200, an invalid field or missing data 400, an unknown bill 404, a failed commit 500 |
| `BillingStore.StoreInvariant` | billing_app_1.py:39-57 | under the invariant the latest bill exists and has an INTEGER id, and every stored item's id and bill id fit an INTEGER column |
| `BillingStore.AddOutcome` | billing_app_1.py:146-166 | `add_item` turns away a missing field, an empty name, units <= 0 or rate < 0; otherwise it fails with a storage error when the units, the bill id or the next item id leave the INTEGER range; otherwise it fails the foreign key exactly when no bill has the id, and stores the item exactly when one does |
| `BillingStore.AppendKeepsInvariant` | billing_app_1.py:151-166 | appending a validated item with the next item id to an existing bill keeps the store invariant |
| `BillingStore.PatchKeepsInvariant` | billing_app_1.py:116-120 | replacing a bill by one that keeps its display id, or takes one no other bill holds, keeps the store invariant |
| `BillingStore.Store.constructor` | billing_app_1.py:69 | the freshly created tables are empty and satisfy the store invariant |
| `BillingStore.Store.LatestBillId` | billing_app_1.py:110-113 | there is no current bill exactly when there are no bills; otherwise the current bill has the highest id |
| `BillingStore.Store.InitDb` | billing_app_1.py:66-90 | an empty catalog becomes exactly the seed catalog; a non-empty one is unchanged; bills and items are untouched |
| `BillingStore.Store.NewBill` | billing_app_1.py:175-188 | succeeds exactly when the id sequence is within the INTEGER range and neither the empty display id nor `str(next id)` is taken; then it adds exactly one bill, under an id above every existing id, dated today, with display id `str(id)`, the other columns NULL and no items, and that bill becomes the latest; on failure no bill changes, and the drawn id is used up unless the sequence was exhausted |
| `BillingStore.Store.Index` | billing_app_1.py:100-140 | with no bill it redirects and changes nothing; otherwise it shows the bill with the highest id, backfills an empty display id with `str(id)` (a failed commit when another bill holds it, with nothing changed), changes no other bill, and shows the bill's items in insertion order with the sum of their stored amounts |
| `BillingStore.Store.AddItem` | billing_app_1.py:142-173 | answers `AddOutcome`; rejected input and a storage error (units or bill id outside the INTEGER range, or an exhausted item id sequence) change nothing; an unknown bill stores nothing but uses up one item id; otherwise exactly one item is appended, with the drawn id, which is above every stored item id, and amount units * rate, at the end of that bill's list; bills and products never change |
| `BillingStore.Store.DrawItemId` | billing_app_1.py:52 | the item id sequence advances by one and nothing else changes |
| `BillingStore.Store.AppendItem` | billing_app_1.py:158-166 | the item is stored at the end under the next item id, above every stored item id, and nothing else changes |
| `BillingStore.Store.UpdateBill` | billing_app_1.py:190-220 | rejects a field outside the allow-list before anything else, then missing data, then an unknown bill, then a display id another bill holds, each with nothing changed; on success it overwrites exactly the named column of exactly that bill |
| `BillingStore.PaperScenario` | billing_app_1.py:142-166 | a new bill with two reams of paper at 350 shows one item, "A4 Plain Paper Ream" of amount 700, and a total of 700 |
| `BillingStore.WideUnitsScenario` | billing_app_1.py:54 | 2^31 units pass validation but not the INTEGER column, so the request fails and stores nothing |
| `BillingStore.PatchScenario` | billing_app_1.py:190-214 | patching the recipient shows in the next view, and patching the `id` column is refused as an invalid field |

## Left out

- HTTP and presentation: routing, `request.form` and `get_json` extraction, redirects, JSON bodies and messages, and the HTML template. Only the outcome of each handler is modelled, and for `update_bill` its status code.
- Storage plumbing: the engine, `SessionLocal`, `get_db`, the `DATABASE_URL` lookup and connection pooling. These are replaced by the store object. A commit that fails for reasons other than the unique index, the foreign key or an INTEGER range (a lost connection, say) is not modelled.
- Floating point: `rate`, `amount` and the total are exact reals. `float("nan")` and `float("inf")` parse and pass the check at line 151 in the source; the model has no such values.
- `date.today()` is the `today` parameter of `NewBill`. `print` logging is not modelled.
- The product list that `index` builds for the page (lines 105-107) is display-only and not modelled. Products are only written by `InitDb`.
- migrate.py only calls `init_db` and exits the process, so it is not modelled.
- Concurrency between requests is left to the database and is not modelled.
- Bill deletion and its cascade to items are not modelled, because no handler deletes bills.
- NULL display ids are not modelled, because no handler writes one; a display id is a string. The backfill test at line 116 would treat NULL and "" alike. The unique index, however, allows several NULLs but only one "".
- AddItem: the local SQLite fallback database (line 19) is not modelled. Without foreign-key enforcement it would store an item whose bill does not exist. Its INTEGER columns hold 64 bits and its rowids are reused after a rollback.
- AddItem: the model assumes that a value outside an INTEGER column fails the INSERT before an item id is drawn, so the id sequence is unchanged in that case. An exhausted item id sequence fails `nextval` and draws nothing.
- The `bill_id is None` test at line 151 can never hold after `int(...)`, so the model has no such case. A form field that is missing or does not parse is a `None` argument.
- UpdateBill: `value` is modelled as a string and `bill_id` as an integer. Other JSON types are not modelled.
- Index: a bill's items are in insertion order. The relationship in the source has no `order_by`, so this is the order the database returns in practice.
