# Grocery store inventory and billing, modelled in Dafny

The grocery store is a single Streamlit page. A sidebar menu chooses one of
six branches: View Items, Add Item, Purchase Items (Billing), Search Item,
Edit Item and View Bills. The page keeps two lists in memory. `items` holds
catalogue entries: name, category, quantity label and price. `bills` holds
generated bills: customer name, date, lines and total. Both lists are
rewritten to JSON after every change.

The page writes its business logic inline in the menu branches. This model
lifts each branch out as a pure function on an immutable `Store` of the two
lists. Each function returns the new store and the notice the page shows.

- `records.dfy` (`Records`): the item, bill-line, bill and store records; the
  category and quantity-label choices; prices and purchase counts of at least
  1; the line-total sum; and the store invariant that every bill's total is
  the sum of its line totals.
- `text.dfy` (`Text`): the lower-casing used by the search page.
- `catalog.dfy` (`Catalog`): adding an item, the case-insensitive
  first-match search, and the case-sensitive edit of every item with the
  selected name.
- `billing.dfy` (`Billing`): choosing the purchased items, the per-name
  quantity, the bill lines and running total, generating the bill, and the
  newest-first bill listing.
- `session.dfy` (`Session`): the menu as a sequence of actions. Over any
  session, bills are append-only and stay well formed, and editing an item
  never rewrites a bill.
- `scenarios.dfy` (`Scenarios`): worked examples. They cover buying three
  apples at 50, finding "milk" by searching "MILK", and the refusals of the
  billing page.

Widget values are inputs to these functions: text boxes, select boxes, the
multiselect and the number inputs. The bill date is an opaque string
argument. A function describes what happens when its button is pressed.

Behaviour of the code worth noting:

- A bill cannot fail with "item not found". The code keeps only the catalogue
  items whose names were selected. A selected name that no item carries is
  ignored. The multiselect only offers catalogue names anyway.
- Adding an item does not check the price. The number input's `min_value=1`
  guarantees it, so prices have the type `Price` (at least 1).
- Editing is not a case-insensitive first-match lookup. The code compares
  names exactly, with case. When only one item carries the selected name,
  that item is overwritten.
- When two items share the selected name, the page fails with a
  duplicate-widget error at the second one. The first has already been
  overwritten and saved at that point, so only the first is updated.
- The quantity for a purchase is read per item name, through a number input
  keyed by that name. A name with no entered quantity gets 1, the widget's
  initial value.
- When two purchased items share a name, the second number input repeats
  the key, and the page fails before the "Generate Bill" button is drawn.
  So the page makes no bill in that case.

## Model

| member | source | states |
|---|---|---|
| Records.Names | grocery_store.py:142 | The name list has one entry per item, in catalogue order, and entry i is item i's name. |
| Records.LinesTotalAtLeastCount | grocery_store.py:93-97 | Every line costs at least 1 because price and quantity are both at least 1. So a bill's total is at least its number of lines, and a non-empty bill costs at least 1. |
| Text.LowerChar | grocery_store.py:131 | A lower-cased character is never upper case. An upper-case letter A-Z becomes its lower-case letter, 32 code points on. Any other character is unchanged. |
| Text.Lower | grocery_store.py:131 | Lower-casing keeps the length, leaves no upper-case letter, and lower-cases each character in place. Characters that are not upper case are kept as they were. |
| Text.LowerIdempotent | grocery_store.py:131 | Lower-casing an already lower-cased name changes nothing. |
| Catalog.AddItem | grocery_store.py:72-79 | With a non-empty name, the list grows by exactly one item at the end, carrying the four given fields, and earlier items are unchanged. With an empty name, the store is unchanged and the missing-name warning is shown. Bills are never touched. |
| Catalog.FirstMatch | grocery_store.py:130-135 | The search loop stops at an item whose lower-cased name equals the lower-cased query, and no earlier item matches. If it stops nowhere, no item matches. |
| Catalog.Search | grocery_store.py:128-137 | An item is found exactly when some item matches case-insensitively, and it is the first match in list order. "Not found" is reported exactly when nothing matches and the query is non-empty. An empty query that matches nothing shows nothing. |
| Catalog.EditItems | grocery_store.py:146-160 | Every item whose name equals the selected name exactly (with case) gets all four fields overwritten. Every other item and the list length are unchanged. |
| Catalog.EditItem | grocery_store.py:142-164 | An empty catalogue only warns. The update notice appears exactly when the selected name is a catalogue name. An unknown name changes nothing. Item i becomes the edited record exactly when its name is the selected one. The length and the bills are unchanged. |
| Catalog.AddThenSearch | grocery_store.py:128-135 | After a successful add, searching for the new name finds an item. It is the new item whenever no earlier item already matched that name. |
| Catalog.EditRemovesOldName | grocery_store.py:146-160 | After renaming, no item keeps the old name, because every item that carried it is overwritten. |
| Catalog.EditIdempotent | grocery_store.py:146-160 | Applying the same edit twice gives the same list as applying it once. |
| Catalog.EditThenSearch | grocery_store.py:157-160 | After editing an existing item, searching for its new name finds a match no later than the first edited position. The match is the edited record unless an earlier item already matched the new name. |
| Billing.Purchased | grocery_store.py:89 | An item is purchased exactly when it is in the catalogue and its name is among the selected names. The purchase is never longer than the catalogue. |
| Billing.RunningTotal | grocery_store.py:91-97 | The total accumulated while reading quantities is at least the number of purchased items, because every item adds price × quantity ≥ 1. |
| Billing.BillLines | grocery_store.py:108 | There is one line per purchased item, in the same order. Each line has that item's name, the quantity for its name, and a copy of its price. |
| Billing.RunningTotalIsLinesTotal | grocery_store.py:91-97 | The total accumulated over the purchased items equals the sum of price times quantity over the bill's lines. |
| Billing.GenerateBill | grocery_store.py:86-112 | An empty catalogue, then an empty customer name, then an empty purchase each produce no bill and leave the store unchanged. Otherwise exactly one bill is appended after the unchanged earlier bills. It holds the customer name, the date and one line per purchased item with its price copied, and its total is the sum of line totals, at least 1. The catalogue is never changed. |
| Billing.NewestFirst | grocery_store.py:170 | The listing has every bill, and position i shows the bill recorded i places before the newest one. |
| Billing.PurchasedAppend | grocery_store.py:89 | The purchase keeps catalogue order: selecting from a concatenated catalogue selects from each part in turn. |
| Billing.PurchasedIgnoresSelectionOrder | grocery_store.py:89 | Two selections with the same set of names buy the same items in the same order. |
| Billing.PurchasedEverything | grocery_store.py:89 | Selecting every item's name buys the whole catalogue in catalogue order. |
| Billing.PurchasedEmptyIffNoSelection | grocery_store.py:87-103 | When the selection is drawn from catalogue names, the purchase is empty exactly when the selection is. So the empty-purchase warning means nothing was selected. |
| Billing.GeneratePreservesConsistency | grocery_store.py:105-112 | If every recorded bill's total equals the sum of its line totals, this still holds after generating a bill. |
| Billing.NewestFirstInvolution | grocery_store.py:170 | Reversing the listing again gives the bills in recording order. |
| Billing.NewestFirstAfterAppend | grocery_store.py:170 | After a bill is recorded, the listing shows it first, followed by the earlier listing unchanged. |
| Session.Apply | grocery_store.py:49-176 | Viewing and searching change nothing. Adding and editing leave the bills unchanged. Billing leaves the items unchanged and appends at most one bill. Earlier bills always stay. Only editing may change existing items, and it keeps their number. |
| Session.RunKeepsInvariants | grocery_store.py:49-176 | Over any sequence of menu actions, earlier bills stay as a prefix, every bill stays well formed, and the catalogue never shrinks. |
| Session.EditAfterBillKeepsBill | grocery_store.py:156-161 | Editing any item after a bill was generated leaves that bill's line prices as copied from the catalogue at billing time, and its total still equals its line totals. |
| Scenarios.ApplePurchase | grocery_store.py:72-112 | Adding Apple at 50 and billing 3 for Asha records one bill with the single line Apple x 3 at 50 and total 150. The catalogue is unchanged. |
| Scenarios.SearchIgnoresCase | grocery_store.py:130-131 | Searching "MILK" finds the item named "milk". |
| Scenarios.BillingRefusals | grocery_store.py:86-123 | An empty customer name, an empty selection, a selection of an unknown name, and an empty catalogue each produce the matching warning and no bill. |

## Left out

- JSON persistence (`load_items`, `save_items`, `load_bills`, `save_bills`, lines 9-35): file I/O. The "missing file gives an empty list" rule is the empty `Store`. The rewrite after each change is implicit in returning the new store.
- All Streamlit rendering: the page set-up, sidebar, headers, expanders, `st.json` and the message texts. Notices are modelled as the `Notice` values the page would show.
- The View Items branch (lines 50-59) only renders the item list in stored order, which is the store's `items` itself. The bill receipt (lines 115-120) and the bill listing body (lines 171-174) only render stored fields.
- The timestamp `datetime.datetime.now().strftime(...)` (line 107): the date is an opaque string parameter of `Billing.GenerateBill`.
- Text.Lower: folds only the ASCII letters A-Z, not the full Unicode case mapping of Python's `str.lower()`.
- Streamlit duplicate-widget errors when two items share a name (lines 94, 147-156). The model does not raise. Quantities are one value per name.
- Catalog.EditItems: with two or more items carrying the selected name, it overwrites all of them. The page fails at the second one after saving the first, so only the first changes there.
- Catalog.EditItem: inherits the duplicate-name case from `Catalog.EditItems`. It defines a result (every match overwritten, the update notice) where the page fails after updating only the first match.
- Billing.GenerateBill: when two purchased items share a name, it records a bill with one shared quantity on both lines. The page fails before the button is drawn and records no bill.
- The `.index(...)` lookups of the edit select boxes (lines 149, 153), which would raise for a stored category or label outside the fixed lists. Categories and labels are enumerations here, so every item carries one of the offered values.
- Item data loaded from an edited JSON file with non-integer or missing fields. Items here always have all four fields and an integer price of at least 1.
