/**
 The records of the grocery store: catalogue items, bill lines, bills, and
 the in-memory store that owns the two lists (`items` and `bills`) which the
 script loads at start-up and rewrites after every change.

 Every menu branch of the script is modelled as a pure function from a
 `Store` to an `Outcome`: the store after the branch ran, plus the notice the
 page shows (success, warning or nothing).
 */
module Records {

  /** The six categories offered by the category select box. */
  datatype Category = Fruits | Vegetables | Dairy | Snacks | Beverages | Other

  /** The nine descriptive quantity labels offered by the quantity select box.
      They are labels only: nothing ever decrements them. */
  datatype QuantityLabel =
    | HalfKg | OneKg | TwoKg | FiveKg | TenKg
    | Ml500 | OneLitre | TwoLitres | FiveLitres

  /** A unit price in rupees; the number inputs for price have `min_value=1`. */
  type Price = p: int | p >= 1 witness 1

  /** A purchase count; the per-item number input has `min_value=1`. */
  type Qty = q: int | q >= 1 witness 1

  /** A catalogue entry. Names are not unique. */
  datatype Item = Item(name: string, category: Category, quantity: QuantityLabel, price: Price)

  /** One line of a bill: the price is a copy taken when the bill was made. */
  datatype Line = Line(name: string, qty: Qty, price: Price)

  /** A generated bill; `date` is the opaque timestamp text. */
  datatype Bill = Bill(name: string, date: string, items: seq<Line>, total: int)

  /** The two lists the script keeps in memory. */
  datatype Store = Store(items: seq<Item>, bills: seq<Bill>)

  /** What the page tells the operator after a branch ran. */
  datatype Notice =
    | ItemAdded          // success: the new item was stored
    | MissingItemName    // warning: an item needs a name
    | NoItemsToPurchase  // warning: the catalogue is empty, nothing can be bought
    | MissingCustomer    // warning: a bill needs a customer name
    | NothingSelected    // warning: a bill needs at least one purchased item
    | BillGenerated      // success: the bill was recorded
    | NoItemsToEdit      // warning: the catalogue is empty, nothing can be edited
    | ItemUpdated        // success: the selected item was overwritten
    | Quiet              // no message at all

  datatype Outcome = Outcome(store: Store, notice: Notice)

  datatype Option<T> = None | Some(value: T)

  /** The names of the catalogue, in catalogue order: the options of the
      purchase multiselect and of the edit select box. */
  function Names(items: seq<Item>): (r: seq<string>)
    ensures |r| == |items|
    ensures forall i :: 0 <= i < |items| ==> r[i] == items[i].name
  {
    if items == [] then [] else [items[0].name] + Names(items[1..])
  }

  /** The sum of `price * qty` over the lines of a bill. */
  function LinesTotal(lines: seq<Line>): int
  {
    if lines == [] then 0 else lines[0].price * lines[0].qty + LinesTotal(lines[1..])
  }

  /** A bill is well formed when its total is the sum of its line totals. */
  ghost predicate ValidBill(b: Bill)
  {
    b.total == LinesTotal(b.items)
  }

  /** The store invariant: every recorded bill, old or new, is well formed. */
  ghost predicate Consistent(s: Store)
  {
    forall k :: 0 <= k < |s.bills| ==> ValidBill(s.bills[k])
  }

  /** Every line costs at least one rupee, so a bill total is at least its
      number of lines; in particular a non-empty bill costs at least 1. */
  lemma {:induction false} LinesTotalAtLeastCount(lines: seq<Line>)
    ensures LinesTotal(lines) >= |lines|
  {
    if lines != [] {
      var l := lines[0];
      assert l.price * l.qty >= l.qty by {
        assert l.price * l.qty == (l.price - 1) * l.qty + l.qty;
        assert (l.price - 1) * l.qty >= 0;
      }
      LinesTotalAtLeastCount(lines[1..]);
    }
  }
}
