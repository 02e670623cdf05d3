/**
 Concrete walk-throughs of the pages: a purchase of apples, a search that
 ignores case, and the refusals of the billing page.
 */
module Scenarios {
  import opened Records
  import opened Text
  import opened Catalog
  import opened Billing

  const Apple := Item("Apple", Fruits, OneKg, 50)

  /** Adding "Apple" at 50 to an empty store and billing 3 of them for "Asha"
      records one bill with the single line Apple x 3 at 50 and total 150. */
  lemma ApplePurchase(date: string)
    ensures var added := AddItem(Store([], []), "Apple", Fruits, OneKg, 50);
      var billed := GenerateBill(added.store, "Asha", ["Apple"], map["Apple" := 3], date);
      && added.store.items == [Apple]
      && billed.notice == BillGenerated
      && billed.store.items == [Apple]
      && billed.store.bills == [Bill("Asha", date, [Line("Apple", 3, 50)], 150)]
  {
    var added := AddItem(Store([], []), "Apple", Fruits, OneKg, 50);
    assert added.store.items == [Apple];
    assert Purchased([Apple], ["Apple"]) == [Apple];
    assert BillLines([Apple], map["Apple" := 3]) == [Line("Apple", 3, 50)];
    assert RunningTotal([Apple], map["Apple" := 3]) == 150;
  }

  /** Searching "MILK" finds the item stored as "milk". */
  lemma SearchIgnoresCase()
    ensures var milk := Item("milk", Dairy, OneLitre, 60);
      Search([Apple, milk], "MILK") == Found(milk)
  {
    var milk := Item("milk", Dairy, OneLitre, 60);
    assert Lower("MILK") == "milk";
    assert Lower("milk") == "milk";
    assert !Matches(Apple, "MILK") by {
      assert Lower("Apple")[0] == 'a';
    }
    assert Matches(milk, "MILK");
    assert [Apple, milk][1..] == [milk];
    assert FirstMatch([Apple, milk], "MILK") == Some(1);
  }

  /** An empty customer name, an empty selection, or a selection naming no
      catalogue item each produce no bill. The billing page ignores a name the
      catalogue does not carry, so such a selection is refused as empty. */
  lemma BillingRefusals(date: string)
    ensures var s := Store([Apple], []);
      && GenerateBill(s, "", ["Apple"], map[], date) == Outcome(s, MissingCustomer)
      && GenerateBill(s, "Asha", [], map[], date) == Outcome(s, NothingSelected)
      && GenerateBill(s, "Asha", ["Ghost"], map["Ghost" := 1], date) == Outcome(s, NothingSelected)
      && GenerateBill(Store([], []), "Asha", ["Apple"], map[], date) == Outcome(Store([], []), NoItemsToPurchase)
  {
  }
}
