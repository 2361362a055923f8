/** The client-side cart as a value: the ordered list of lines kept in
    `localStorage` under the key `cart`, and what adding a product does to it. */
module Cart {
  import opened Wrappers
  import opened Shop

  /** `JSON.parse(localStorage.getItem('cart')) || []`: a missing cart reads as
      the empty list. */
  function Stored(cart: Option<seq<LineItem>>): seq<LineItem> {
    cart.GetOr([])
  }

  /** The id of every line, in cart order. */
  function Ids(items: seq<LineItem>): (ids: seq<string>)
    ensures |ids| == |items|
    ensures forall j :: 0 <= j < |items| ==> ids[j] == items[j].product.id
  {
    if items == [] then [] else [items[0].product.id] + Ids(items[1..])
  }

  /** At most one line per product id. */
  predicate UniqueIds(items: seq<LineItem>) {
    forall i, j :: 0 <= i < j < |items| ==> items[i].product.id != items[j].product.id
  }

  /** Every line has a positive quantity. */
  predicate PositiveQuantities(items: seq<LineItem>) {
    forall i :: 0 <= i < |items| ==> items[i].qty >= 1
  }

  /** `cart.find(item => item._id === id)`, as a position: the FIRST line whose
      id matches, or nothing when no line matches. */
  function IndexOf(items: seq<LineItem>, id: string): (r: Option<nat>)
    ensures r.Some? ==> r.value < |items| && items[r.value].product.id == id
    ensures r.Some? ==> forall j :: 0 <= j < r.value ==> items[j].product.id != id
    ensures r.None? <==> id !in Ids(items)
  {
    if items == [] then None
    else if items[0].product.id == id then Some(0)
    else match IndexOf(items[1..], id)
      case None => None
      case Some(k) => Some(k + 1)
  }

  /** The loop behind `cart.find`: scan the lines in order and stop at the
      first one carrying `id`. */
  method FindLine(items: seq<LineItem>, id: string) returns (found: Option<nat>)
    ensures found == IndexOf(items, id)
  {
    var k := 0;
    while k < |items|
      invariant 0 <= k <= |items|
      invariant forall j :: 0 <= j < k ==> items[j].product.id != id
    {
      if items[k].product.id == id {
        FirstMatch(items, id, k);
        return Some(k);
      }
      k := k + 1;
    }
    NoMatch(items, id);
    return None;
  }

  lemma FirstMatch(items: seq<LineItem>, id: string, k: nat)
    requires k < |items| && items[k].product.id == id
    requires forall j :: 0 <= j < k ==> items[j].product.id != id
    ensures IndexOf(items, id) == Some(k)
  {
    assert Ids(items)[k] == id;
  }

  lemma NoMatch(items: seq<LineItem>, id: string)
    requires forall j :: 0 <= j < |items| ==> items[j].product.id != id
    ensures IndexOf(items, id) == None
  {
    forall j | 0 <= j < |items| ensures Ids(items)[j] != id {
    }
  }

  /** The list `addToCart` writes back: the first line with the product's id
      gets one more unit, otherwise a copy of the product with `qty: 1` is
      appended at the end. */
  function AddLine(items: seq<LineItem>, p: Product): (r: seq<LineItem>)
    ensures p.id in Ids(items) ==> |r| == |items|
    ensures p.id !in Ids(items) ==> |r| == |items| + 1 && r[|items|] == LineItem(p, 1)
    ensures forall j :: 0 <= j < |items| ==> r[j].product == items[j].product
    ensures forall j :: 0 <= j < |items| && items[j].product.id != p.id ==> r[j] == items[j]
  {
    match IndexOf(items, p.id)
    case Some(i) => items[i := items[i].(qty := items[i].qty + 1)]
    case None => items + [LineItem(p, 1)]
  }

  /** The total number of units in the cart. */
  function TotalQty(items: seq<LineItem>): int {
    if items == [] then 0 else items[0].qty + TotalQty(items[1..])
  }

  /** What the cart page shows for one line: `item.price * item.qty`. */
  function LineTotal(item: LineItem): int {
    item.product.price * item.qty
  }

  /** One row of the cart page. */
  datatype Row = Row(name: string, qty: int, total: int)

  /** `cart.map(item => ...)` on the cart page. */
  function Rows(items: seq<LineItem>): (rows: seq<Row>)
    ensures |rows| == |items|
    ensures forall j :: 0 <= j < |items| ==>
      rows[j] == Row(items[j].product.name, items[j].qty, items[j].product.price * items[j].qty)
  {
    if items == [] then [] else [Row(items[0].product.name, items[0].qty, LineTotal(items[0]))] + Rows(items[1..])
  }

  // ---------------------------------------------------------------------------
  // Properties of adding a product

  /** A product already in the cart: the first line carrying its id gains
      exactly one unit, keeps its stored fields, and the cart keeps its length. */
  lemma AddExisting(items: seq<LineItem>, p: Product, i: nat)
    requires i < |items| && items[i].product.id == p.id
    requires forall j :: 0 <= j < i ==> items[j].product.id != p.id
    ensures |AddLine(items, p)| == |items|
    ensures AddLine(items, p)[i] == LineItem(items[i].product, items[i].qty + 1)
    ensures forall j :: 0 <= j < |items| && j != i ==> AddLine(items, p)[j] == items[j]
  {
    FirstMatch(items, p.id, i);
  }

  /** A product not yet in the cart: exactly one line is appended at the end,
      carrying the product's fields and quantity 1; the old lines are a prefix. */
  lemma AddNew(items: seq<LineItem>, p: Product)
    requires forall j :: 0 <= j < |items| ==> items[j].product.id != p.id
    ensures AddLine(items, p) == items + [LineItem(p, 1)]
  {
    NoMatch(items, p.id);
  }

  /** Adding keeps at most one line per id. */
  lemma AddKeepsUniqueIds(items: seq<LineItem>, p: Product)
    requires UniqueIds(items)
    ensures UniqueIds(AddLine(items, p))
  {
    var r := AddLine(items, p);
    if p.id !in Ids(items) {
      forall j | 0 <= j < |items| ensures items[j].product.id != p.id {
        assert Ids(items)[j] == items[j].product.id;
      }
    }
  }

  /** Adding keeps every quantity positive. */
  lemma AddKeepsPositiveQuantities(items: seq<LineItem>, p: Product)
    requires PositiveQuantities(items)
    ensures PositiveQuantities(AddLine(items, p))
  {
    match IndexOf(items, p.id)
    case Some(i) =>
    case None =>
  }

  lemma {:induction false} TotalQtyAppend(a: seq<LineItem>, b: seq<LineItem>)
    ensures TotalQty(a + b) == TotalQty(a) + TotalQty(b)
  {
    if a == [] {
      assert a + b == b;
    } else {
      assert (a + b)[1..] == a[1..] + b;
      TotalQtyAppend(a[1..], b);
    }
  }

  lemma {:induction false} TotalQtyBump(items: seq<LineItem>, i: nat)
    requires i < |items|
    ensures TotalQty(items[i := items[i].(qty := items[i].qty + 1)]) == TotalQty(items) + 1
  {
    var r := items[i := items[i].(qty := items[i].qty + 1)];
    if i > 0 {
      assert r[1..] == items[1..][i - 1 := items[1..][i - 1].(qty := items[1..][i - 1].qty + 1)];
      TotalQtyBump(items[1..], i - 1);
    } else {
      assert r[1..] == items[1..];
    }
  }

  /** Quantity conservation: every add puts exactly one more unit in the cart. */
  lemma AddRaisesTotalQtyByOne(items: seq<LineItem>, p: Product)
    ensures TotalQty(AddLine(items, p)) == TotalQty(items) + 1
  {
    match IndexOf(items, p.id)
    case Some(i) =>
      assert AddLine(items, p) == items[i := items[i].(qty := items[i].qty + 1)];
      TotalQtyBump(items, i);
    case None =>
      assert AddLine(items, p) == items + [LineItem(p, 1)];
      TotalQtyAppend(items, [LineItem(p, 1)]);
      assert [LineItem(p, 1)][1..] == [];
      assert TotalQty([LineItem(p, 1)]) == 1;
  }

  /** Adding the same new product twice gives one line with quantity 2, not two lines. */
  lemma AddTwice(items: seq<LineItem>, p: Product)
    requires p.id !in Ids(items)
    ensures AddLine(AddLine(items, p), p) == items + [LineItem(p, 2)]
  {
    AbsentId(items, p.id);
    AddNew(items, p);
    var once := items + [LineItem(p, 1)];
    AddExisting(once, p, |items|);
    var twice := AddLine(once, p);
    assert twice == items + [LineItem(p, 2)] by {
      assert |twice| == |items| + 1;
      forall j | 0 <= j < |twice| ensures twice[j] == (items + [LineItem(p, 2)])[j] {
      }
    }
  }

  lemma AbsentId(items: seq<LineItem>, id: string)
    requires id !in Ids(items)
    ensures forall j :: 0 <= j < |items| ==> items[j].product.id != id
  {
    forall j | 0 <= j < |items| ensures items[j].product.id != id {
      assert Ids(items)[j] == items[j].product.id;
    }
  }

  /** The displayed total of the line that gains a unit grows by that line's
      stored price (the price copied when it was first added, not the
      product's current one); a new line shows the product's price. */
  lemma AddLineTotal(items: seq<LineItem>, p: Product, i: nat)
    requires i < |items| && items[i].product.id == p.id
    requires forall j :: 0 <= j < i ==> items[j].product.id != p.id
    ensures LineTotal(AddLine(items, p)[i]) == LineTotal(items[i]) + items[i].product.price
  {
    AddExisting(items, p, i);
    var price, q := items[i].product.price, items[i].qty;
    assert price * (q + 1) == price * q + price;
  }
}
