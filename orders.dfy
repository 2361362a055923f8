/** Orders as the server stores them: the payload cast to the Order schema,
    with `createdAt` defaulting to the time of creation, and the admin
    listing sorted newest first (`sort({ createdAt: -1 })`). */
module Orders {
  import opened Shop

  /** An item of the Order schema: only `_id`, name, price, qty and image
      survive the cast; the other fields of a cart line are dropped. */
  datatype OrderItem = OrderItem(id: string, name: string, price: int, qty: int, image: string)

  datatype Order = Order(
    id: string,
    name: string,
    phone: string,
    address: string,
    items: seq<OrderItem>,
    createdAt: int)

  /** The stored copy of one cart line. */
  function Snapshot(line: LineItem): OrderItem {
    OrderItem(line.product.id, line.product.name, line.product.price, line.qty, line.product.image)
  }

  /** The stored copies of all cart lines, in cart order. */
  function Snapshots(lines: seq<LineItem>): (items: seq<OrderItem>)
    ensures |items| == |lines|
    ensures forall j :: 0 <= j < |lines| ==>
      items[j].id == lines[j].product.id && items[j].qty == lines[j].qty &&
      items[j].price == lines[j].product.price && items[j].name == lines[j].product.name &&
      items[j].image == lines[j].product.image
  {
    if lines == [] then [] else [Snapshot(lines[0])] + Snapshots(lines[1..])
  }

  /** `new Order(req.body)` with the store's fresh `_id`, at time `nowMs`. */
  function NewOrder(payload: OrderPayload, id: string, nowMs: int): (o: Order)
    ensures o.createdAt == (if payload.createdAt.Some? then payload.createdAt.value else nowMs)
    ensures o.id == id && o.items == Snapshots(payload.items)
    ensures o.name == payload.name && o.phone == payload.phone && o.address == payload.address
  {
    Order(id, payload.name, payload.phone, payload.address, Snapshots(payload.items),
          payload.createdAt.GetOr(nowMs))
  }

  /** Newest first: `createdAt` never increases along the list. */
  predicate NewestFirst(orders: seq<Order>) {
    forall i, j :: 0 <= i < j < |orders| ==> orders[i].createdAt >= orders[j].createdAt
  }

  /** Place `o` into a newest-first list. */
  function Insert(o: Order, orders: seq<Order>): (r: seq<Order>)
    requires NewestFirst(orders)
    ensures NewestFirst(r)
    ensures multiset(r) == multiset(orders) + multiset{o}
    ensures |r| == |orders| + 1
    ensures r[0] == o || (orders != [] && r[0] == orders[0])
  {
    if orders == [] || o.createdAt >= orders[0].createdAt then
      [o] + orders
    else
      var rest := Insert(o, orders[1..]);
      assert orders == [orders[0]] + orders[1..];
      assert rest[0].createdAt <= orders[0].createdAt;
      [orders[0]] + rest
  }

  /** `Order.find().sort({ createdAt: -1 })`: all stored orders, newest
      first. The store does not promise an order among equal timestamps;
      this reference ordering is one of the admissible ones. */
  function SortNewestFirst(orders: seq<Order>): (r: seq<Order>)
    ensures NewestFirst(r)
    ensures multiset(r) == multiset(orders)
    ensures |r| == |orders|
  {
    if orders == [] then []
    else
      assert orders == [orders[0]] + orders[1..];
      Insert(orders[0], SortNewestFirst(orders[1..]))
  }
}
