/**
 The billing page (grocery_store.py lines 81-123) and the bill listing
 (lines 166-176): choosing the purchased items, reading one quantity per
 name, building the bill lines and the total, and appending the bill.
 */
module Billing {
  import opened Records

  // ---------------------------------------------------------------------
  // Purchase selection
  // ---------------------------------------------------------------------

  /** The purchased items: the catalogue items whose name is among the
      selected names, in catalogue order (not selection order). Names that no
      item carries are ignored; an item is kept once however often its name
      was selected. */
  function Purchased(items: seq<Item>, selected: seq<string>): (r: seq<Item>)
    ensures |r| <= |items|
    ensures forall it :: it in r <==> it in items && it.name in selected
  {
    if items == [] then []
    else (if items[0].name in selected then [items[0]] else []) + Purchased(items[1..], selected)
  }

  /** The quantity read for a name; a name the operator did not touch keeps
      the number input's initial value, its minimum 1. */
  function QtyFor(quantities: map<string, Qty>, name: string): Qty
  {
    if name in quantities then quantities[name] else 1
  }

  /** The bill lines: one per purchased item, in the same order, each with
      the item's name, the quantity for that name, and a copy of the item's
      current price. */
  function BillLines(purchased: seq<Item>, quantities: map<string, Qty>): (r: seq<Line>)
    ensures |r| == |purchased|
    ensures forall k :: 0 <= k < |r| ==>
      && r[k].name == purchased[k].name
      && r[k].qty == QtyFor(quantities, purchased[k].name)
      && r[k].price == purchased[k].price
  {
    if purchased == [] then []
    else
      var line := Line(purchased[0].name, QtyFor(quantities, purchased[0].name), purchased[0].price);
      [line] + BillLines(purchased[1..], quantities)
  }

  /** The running total the page accumulates while it reads the quantities:
      `price * qty` added up over the purchased items. Each item adds at
      least its own quantity (its price is at least 1), so the total is at
      least the number of items bought. */
  function RunningTotal(purchased: seq<Item>, quantities: map<string, Qty>): (r: int)
    ensures r >= |purchased|
  {
    if purchased == [] then 0
    else
      var price, qty := purchased[0].price, QtyFor(quantities, purchased[0].name);
      assert price * qty >= qty by {
        assert price * qty == (price - 1) * qty + qty;
        assert (price - 1) * qty >= 0;
      }
      price * qty + RunningTotal(purchased[1..], quantities)
  }

  /** The total accumulated over the items equals the sum of the line totals
      of the bill built from them. */
  lemma {:induction false} RunningTotalIsLinesTotal(purchased: seq<Item>, quantities: map<string, Qty>)
    ensures RunningTotal(purchased, quantities) == LinesTotal(BillLines(purchased, quantities))
  {
    if purchased != [] {
      var lines := BillLines(purchased, quantities);
      assert lines[1..] == BillLines(purchased[1..], quantities);
      RunningTotalIsLinesTotal(purchased[1..], quantities);
    }
  }

  // ---------------------------------------------------------------------
  // Generate Bill
  // ---------------------------------------------------------------------

  /** Pressing "Generate Bill". With an empty catalogue the page only warns.
      Otherwise an empty customer name, then an empty purchase, is refused
      and nothing changes. A successful bill is appended after the earlier
      bills, carries the customer name, the given date, one line per
      purchased item with the price copied from the catalogue, and a total
      equal to the sum of its line totals. The catalogue is never changed:
      buying does not decrement anything. When two purchased items share a
      name the page stops with a duplicate-widget error before the button is
      drawn, so it makes no bill; this function still defines one, with the
      same quantity on both lines. */
  function GenerateBill(s: Store, customer: string, selected: seq<string>, quantities: map<string, Qty>, date: string): (r: Outcome)
    ensures r.store.items == s.items
    ensures s.items == [] ==> r.store == s && r.notice == NoItemsToPurchase
    ensures s.items != [] && customer == [] ==> r.store == s && r.notice == MissingCustomer
    ensures s.items != [] && customer != [] && Purchased(s.items, selected) == [] ==>
      r.store == s && r.notice == NothingSelected
    ensures r.notice == BillGenerated <==> customer != [] && Purchased(s.items, selected) != []
    ensures r.notice != BillGenerated ==> r.store == s
    ensures r.notice == BillGenerated ==>
      && |r.store.bills| == |s.bills| + 1
      && r.store.bills[..|s.bills|] == s.bills
    ensures r.notice == BillGenerated && |r.store.bills| == |s.bills| + 1 ==>
      var p := Purchased(s.items, selected);
      var b := r.store.bills[|s.bills|];
      && b.name == customer
      && b.date == date
      && |b.items| == |p|
      && (forall k :: 0 <= k < |p| ==>
            && b.items[k].name == p[k].name
            && b.items[k].qty == QtyFor(quantities, p[k].name)
            && b.items[k].price == p[k].price)
      && ValidBill(b)
      && b.total >= 1
  {
    if s.items == [] then Outcome(s, NoItemsToPurchase)
    else
      var purchased := Purchased(s.items, selected);
      var total := RunningTotal(purchased, quantities);
      if customer == [] then Outcome(s, MissingCustomer)
      else if purchased == [] then Outcome(s, NothingSelected)
      else
        var lines := BillLines(purchased, quantities);
        RunningTotalIsLinesTotal(purchased, quantities);
        LinesTotalAtLeastCount(lines);
        var bill := Bill(customer, date, lines, total);
        Outcome(Store(s.items, s.bills + [bill]), BillGenerated)
  }

  // ---------------------------------------------------------------------
  // View Bills
  // ---------------------------------------------------------------------

  /** The bill listing order, latest first: position `i` shows the bill
      recorded `i` places before the newest one. */
  function NewestFirst(bills: seq<Bill>): (r: seq<Bill>)
    ensures |r| == |bills|
    ensures forall i :: 0 <= i < |r| ==> r[i] == bills[|bills| - 1 - i]
  {
    if bills == [] then [] else NewestFirst(bills[1..]) + [bills[0]]
  }

  // ---------------------------------------------------------------------
  // Properties relating several calls
  // ---------------------------------------------------------------------

  /** Selection keeps catalogue order: choosing from two parts of the
      catalogue is choosing from each part in turn. */
  lemma {:induction false} PurchasedAppend(a: seq<Item>, b: seq<Item>, selected: seq<string>)
    ensures Purchased(a + b, selected) == Purchased(a, selected) + Purchased(b, selected)
  {
    if a == [] {
      assert a + b == b;
    } else {
      assert (a + b)[1..] == a[1..] + b;
      PurchasedAppend(a[1..], b, selected);
    }
  }

  /** Only which names are selected matters, not their order or repetition. */
  lemma {:induction false} PurchasedIgnoresSelectionOrder(items: seq<Item>, s1: seq<string>, s2: seq<string>)
    requires forall n :: n in s1 <==> n in s2
    ensures Purchased(items, s1) == Purchased(items, s2)
  {
    if items != [] {
      PurchasedIgnoresSelectionOrder(items[1..], s1, s2);
    }
  }

  /** Selecting a name of every item buys the whole catalogue, in order. */
  lemma {:induction false} PurchasedEverything(items: seq<Item>, selected: seq<string>)
    requires forall i :: 0 <= i < |items| ==> items[i].name in selected
    ensures Purchased(items, selected) == items
  {
    if items != [] {
      PurchasedEverything(items[1..], selected);
    }
  }

  /** When the selection is drawn from the catalogue's own names (as the
      multiselect offers them), the purchase is empty exactly when the
      selection is. */
  lemma PurchasedEmptyIffNoSelection(items: seq<Item>, selected: seq<string>)
    requires forall n :: n in selected ==> n in Names(items)
    ensures Purchased(items, selected) == [] <==> selected == []
  {
    if selected != [] {
      var n := selected[0];
      assert n in Names(items);
      var i :| 0 <= i < |items| && Names(items)[i] == n;
      assert items[i] in Purchased(items, selected);
    }
  }

  /** Generating a bill keeps every recorded bill well formed. */
  lemma GeneratePreservesConsistency(s: Store, customer: string, selected: seq<string>, quantities: map<string, Qty>, date: string)
    requires Consistent(s)
    ensures Consistent(GenerateBill(s, customer, selected, quantities, date).store)
  {
  }

  /** Listing twice in reverse gives the bills back in recording order. */
  lemma NewestFirstInvolution(bills: seq<Bill>)
    ensures NewestFirst(NewestFirst(bills)) == bills
  {
  }

  /** After a bill is recorded, the listing shows it first, followed by the
      earlier listing unchanged. */
  lemma NewestFirstAfterAppend(bills: seq<Bill>, b: Bill)
    ensures NewestFirst(bills + [b]) == [b] + NewestFirst(bills)
  {
  }
}
