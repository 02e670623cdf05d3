/**
 The sidebar menu as a whole (grocery_store.py lines 40-47): each page visit
 is an action on the store, and a session is a sequence of actions. The
 lemmas here relate the pages to one another: bills only ever grow, every
 bill stays well formed, and editing the catalogue never rewrites a bill.
 */
module Session {
  import opened Records
  import opened Catalog
  import opened Billing

  /** One menu choice together with the widget values it was submitted with. */
  datatype Action =
    | ViewItems
    | AddAction(itemName: string, category: Category, quantity: QuantityLabel, price: Price)
    | PurchaseAction(customer: string, selected: seq<string>, quantities: map<string, Qty>, date: string)
    | SearchAction(query: string)
    | EditAction(target: string, newName: string, newCategory: Category, newQuantity: QuantityLabel, newPrice: Price)
    | ViewBills

  /** The store after one action. Viewing and searching change nothing;
      adding and editing change only the items; billing changes only the
      bills, by appending at most one. */
  function Apply(s: Store, a: Action): (r: Store)
    ensures a.ViewItems? || a.SearchAction? || a.ViewBills? ==> r == s
    ensures a.AddAction? || a.EditAction? ==> r.bills == s.bills
    ensures a.PurchaseAction? ==> r.items == s.items
    ensures |r.bills| == |s.bills| || |r.bills| == |s.bills| + 1
    ensures |s.bills| <= |r.bills| && r.bills[..|s.bills|] == s.bills
    ensures !a.EditAction? ==> |s.items| <= |r.items| && r.items[..|s.items|] == s.items
    ensures a.EditAction? ==> |r.items| == |s.items|
  {
    match a
    case ViewItems => s
    case AddAction(name, category, quantity, price) => AddItem(s, name, category, quantity, price).store
    case PurchaseAction(customer, selected, quantities, date) =>
      GenerateBill(s, customer, selected, quantities, date).store
    case SearchAction(_) => s
    case EditAction(selected, name, category, quantity, price) =>
      EditItem(s, selected, name, category, quantity, price).store
    case ViewBills => s
  }

  /** The store after a whole session. */
  function Run(s: Store, actions: seq<Action>): Store
    decreases actions
  {
    if actions == [] then s else Run(Apply(s, actions[0]), actions[1..])
  }

  /** Over any session the bills are append-only, every bill stays well
      formed, and the catalogue never shrinks (no action deletes an item). */
  lemma {:induction false} RunKeepsInvariants(s: Store, actions: seq<Action>)
    requires Consistent(s)
    decreases actions
    ensures var t := Run(s, actions);
      && Consistent(t)
      && |s.bills| <= |t.bills|
      && t.bills[..|s.bills|] == s.bills
      && |s.items| <= |t.items|
  {
    if actions != [] {
      var a := actions[0];
      var s1 := Apply(s, a);
      if a.PurchaseAction? {
        GeneratePreservesConsistency(s, a.customer, a.selected, a.quantities, a.date);
      } else {
        assert s1.bills == s.bills;
      }
      RunKeepsInvariants(s1, actions[1..]);
      var t := Run(s1, actions[1..]);
      assert t.bills[..|s.bills|] == t.bills[..|s1.bills|][..|s.bills|];
    }
  }

  /** Snapshot pricing: once a bill has been generated, editing any item
      (including changing its price) leaves that bill, and the price copied
      into each of its lines, as it was. */
  lemma EditAfterBillKeepsBill(
    s: Store, customer: string, selected: seq<string>, quantities: map<string, Qty>, date: string,
    target: string, name: string, category: Category, quantity: QuantityLabel, price: Price)
    requires GenerateBill(s, customer, selected, quantities, date).notice == BillGenerated
    ensures var billed := GenerateBill(s, customer, selected, quantities, date).store;
      var edited := EditItem(billed, target, name, category, quantity, price).store;
      var p := Purchased(s.items, selected);
      && |edited.bills| == |s.bills| + 1
      && |edited.bills[|s.bills|].items| == |p|
      && (forall k :: 0 <= k < |p| ==> edited.bills[|s.bills|].items[k].price == p[k].price)
      && ValidBill(edited.bills[|s.bills|])
  {
  }
}
