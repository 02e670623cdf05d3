/**
 The item catalogue: the "Add Item", "Search Item" and "Edit Item" branches
 of the script (grocery_store.py lines 61-164), as pure functions on the
 item list and the store.
 */
module Catalog {
  import opened Records
  import opened Text

  // ---------------------------------------------------------------------
  // Add Item
  // ---------------------------------------------------------------------

  /** Pressing "Add Item": a non-empty name appends exactly one new item at
      the end; an empty name changes nothing and shows a warning. Bills are
      never touched. */
  function AddItem(s: Store, name: string, category: Category, quantity: QuantityLabel, price: Price): (r: Outcome)
    ensures r.store.bills == s.bills
    ensures name != [] ==>
      && r.notice == ItemAdded
      && |r.store.items| == |s.items| + 1
      && r.store.items[..|s.items|] == s.items
      && r.store.items[|s.items|] == Item(name, category, quantity, price)
    ensures name == [] ==> r.store == s && r.notice == MissingItemName
  {
    if name != [] then
      Outcome(Store(s.items + [Item(name, category, quantity, price)], s.bills), ItemAdded)
    else
      Outcome(s, MissingItemName)
  }

  // ---------------------------------------------------------------------
  // Search Item
  // ---------------------------------------------------------------------

  /** The search test: names equal once both sides are lower-cased. */
  predicate Matches(item: Item, query: string)
  {
    SameIgnoringCase(item.name, query)
  }

  /** The index the search loop stops at (its `break`), if any. */
  function FirstMatch(items: seq<Item>, query: string): (r: Option<nat>)
    ensures r.Some? ==>
      && r.value < |items|
      && Matches(items[r.value], query)
      && forall j :: 0 <= j < r.value ==> !Matches(items[j], query)
    ensures r.None? ==> forall j :: 0 <= j < |items| ==> !Matches(items[j], query)
  {
    if items == [] then None
    else if Matches(items[0], query) then Some(0)
    else
      match FirstMatch(items[1..], query)
      case None => None
      case Some(k) => Some(k + 1)
  }

  /** What the search page shows: the first matching item, the "not found"
      error, or nothing at all (an empty query that matched no item). */
  datatype SearchResult = Found(item: Item) | NotFound | Blank

  /** The search: the first item, in list order, whose lower-cased name equals
      the lower-cased query; "not found" only for a non-empty query. */
  function Search(items: seq<Item>, query: string): (r: SearchResult)
    ensures r.Found? <==> exists i :: 0 <= i < |items| && Matches(items[i], query)
    ensures r.Found? ==> exists i :: (
      && 0 <= i < |items|
      && items[i] == r.item
      && Matches(items[i], query)
      && forall j :: 0 <= j < i ==> !Matches(items[j], query))
    ensures r.NotFound? <==> query != [] && forall i :: 0 <= i < |items| ==> !Matches(items[i], query)
    ensures r.Blank? <==> query == [] && forall i :: 0 <= i < |items| ==> !Matches(items[i], query)
  {
    match FirstMatch(items, query)
    case Some(i) => Found(items[i])
    case None => if query != [] then NotFound else Blank
  }

  // ---------------------------------------------------------------------
  // Edit Item
  // ---------------------------------------------------------------------

  /** The update loop: every item whose name equals `selected` exactly (case
      sensitive) gets all four fields overwritten; every other item, and the
      length of the list, stay as they were. When two items share the
      selected name the page itself stops with a duplicate-widget error at
      the second one, after the first was already overwritten and saved; this
      function gives the loop's result as written, which the page never
      reaches in that case. */
  function EditItems(items: seq<Item>, selected: string, edited: Item): (r: seq<Item>)
    ensures |r| == |items|
    ensures forall i :: 0 <= i < |items| && items[i].name == selected ==> r[i] == edited
    ensures forall i :: 0 <= i < |items| && items[i].name != selected ==> r[i] == items[i]
  {
    if items == [] then []
    else [if items[0].name == selected then edited else items[0]] + EditItems(items[1..], selected, edited)
  }

  /** Pressing "Update Item" for the item chosen in the select box. With an
      empty catalogue the page only warns; when no item carries the selected
      name nothing is shown and nothing changes. Bills are never touched, so
      an edit cannot alter the prices copied into earlier bills. */
  function EditItem(s: Store, selected: string, name: string, category: Category, quantity: QuantityLabel, price: Price): (r: Outcome)
    ensures r.store.bills == s.bills
    ensures |r.store.items| == |s.items|
    ensures s.items == [] ==> r.store == s && r.notice == NoItemsToEdit
    ensures r.notice == ItemUpdated <==> selected in Names(s.items)
    ensures selected !in Names(s.items) ==> r.store == s
    ensures forall i :: 0 <= i < |s.items| ==>
      r.store.items[i] == (if s.items[i].name == selected then Item(name, category, quantity, price) else s.items[i])
  {
    if s.items == [] then Outcome(s, NoItemsToEdit)
    else if selected in Names(s.items) then
      Outcome(Store(EditItems(s.items, selected, Item(name, category, quantity, price)), s.bills), ItemUpdated)
    else
      Outcome(s, Quiet)
  }

  // ---------------------------------------------------------------------
  // Properties relating several calls
  // ---------------------------------------------------------------------

  /** After a successful add, searching for the new name finds an item; it is
      the new item exactly when no earlier item already matched that name. */
  lemma AddThenSearch(s: Store, name: string, category: Category, quantity: QuantityLabel, price: Price)
    requires name != []
    ensures var items' := AddItem(s, name, category, quantity, price).store.items;
      && Search(items', name).Found?
      && (Search(items', name).item == Item(name, category, quantity, price)
          || exists i :: 0 <= i < |s.items| && Matches(s.items[i], name))
      && ((forall i :: 0 <= i < |s.items| ==> !Matches(s.items[i], name)) ==>
          Search(items', name) == Found(Item(name, category, quantity, price)))
  {
  }

  /** After an edit that changes the name, no item is left with the old name:
      the update loop renames every item that carried it. */
  lemma EditRemovesOldName(items: seq<Item>, selected: string, edited: Item)
    requires edited.name != selected
    ensures forall i :: 0 <= i < |items| ==> EditItems(items, selected, edited)[i].name != selected
  {
  }

  /** Repeating the same edit changes nothing more. */
  lemma EditIdempotent(items: seq<Item>, selected: string, edited: Item)
    ensures EditItems(EditItems(items, selected, edited), selected, edited) == EditItems(items, selected, edited)
  {
  }

  /** After editing an item that exists, searching for its new name finds an
      item no later in the list than the first edited one; it is the edited
      record unless an earlier item already matched the new name. */
  lemma EditThenSearch(items: seq<Item>, selected: string, edited: Item, k: nat)
    requires k < |items| && items[k].name == selected
    requires forall j :: 0 <= j < k ==> items[j].name != selected
    ensures var items' := EditItems(items, selected, edited);
      && Search(items', edited.name).Found?
      && FirstMatch(items', edited.name).Some?
      && FirstMatch(items', edited.name).value <= k
      && ((forall j :: 0 <= j < k ==> !Matches(items[j], edited.name)) ==>
          Search(items', edited.name) == Found(edited))
  {
  }
}
