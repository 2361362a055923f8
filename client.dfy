/** The storefront client's persistent state: the two `localStorage` keys it
    uses, `cart` and `token`, and the page handlers that change them
    (`addToCart`, `submitOrder`, `handleLogin`) or read them (the cart page,
    the admin panel's request header). */
module Client {
  import opened Wrappers
  import opened Shop
  import opened Cart

  /** How the order request ended, as seen by the `.then` chain: `Answered`
      when a reply arrived and `res.json()` parsed its body (whatever its
      status), `Failed` when the request or the parse was rejected. */
  datatype Reply = Failed | Answered(status: int)

  /** The browser's local storage, as far as the storefront uses it. */
  class Browser {
    var cart: Option<seq<LineItem>>
    var token: Option<string>

    /** A fresh browser profile: nothing stored. */
    constructor ()
      ensures cart == None && token == None
    {
      cart := None;
      token := None;
    }

    /** The cart as every page reads it: a missing cart is the empty list. */
    method Read() returns (items: seq<LineItem>)
      ensures cart.None? ==> items == []
      ensures cart.Some? ==> items == cart.value
    {
      if cart.None? {
        items := [];
      } else {
        items := cart.value;
      }
    }

    /** `addToCart` on the product page: read the cart, bump the first line
        carrying the product's id or append a copy with `qty: 1`, and write
        the whole list back. */
    method Add(p: Product)
      modifies this
      ensures cart == Some(AddLine(Stored(old(cart)), p))
      ensures UniqueIds(Stored(old(cart))) ==> UniqueIds(Stored(cart))
      ensures TotalQty(Stored(cart)) == TotalQty(Stored(old(cart))) + 1
      ensures token == old(token)
    {
      var items := Read();
      var found := FindLine(items, p.id);
      ghost var before := items;
      if found.Some? {
        var i := found.value;
        items := items[i := items[i].(qty := items[i].qty + 1)];
      } else {
        items := items + [LineItem(p, 1)];
      }
      cart := Some(items);
      if UniqueIds(before) {
        AddKeepsUniqueIds(before, p);
      }
      AddRaisesTotalQtyByOne(before, p);
    }

    /** `submitOrder` on the checkout page. An empty cart sends nothing and
        changes nothing. Otherwise the form and the cart are posted, and the
        stored cart is removed as soon as the reply's body parses, whatever
        the reply's status. */
    method SubmitOrder(form: Form, reply: Reply) returns (request: Option<OrderPayload>)
      modifies this
      ensures Stored(old(cart)) == [] ==> request == None && cart == old(cart)
      ensures Stored(old(cart)) != [] ==> request == Some(PayloadOf(form, Stored(old(cart))))
      ensures Stored(old(cart)) != [] ==> cart == (if reply.Answered? then None else old(cart))
      ensures token == old(token)
    {
      var items := Read();
      if |items| == 0 {
        return None;
      }
      request := Some(PayloadOf(form, items));
      if reply.Answered? {
        cart := None;
      }
    }

    /** `handleLogin`: store the token only when the reply carries a truthy
        (non-empty) `token` field; report whether the page moves on to the
        admin panel. */
    method HandleLogin(replied: Option<string>) returns (toPanel: bool)
      modifies this
      ensures toPanel <==> replied.Some? && replied.value != ""
      ensures toPanel ==> token == replied
      ensures !toPanel ==> token == old(token)
      ensures cart == old(cart)
    {
      toPanel := replied.Some? && replied.value != "";
      if toPanel {
        token := replied;
      }
    }

    /** The cart page: one row per stored line, each showing `price * qty`. */
    method CartPage() returns (rows: seq<Row>)
      ensures |rows| == |Stored(cart)|
      ensures forall j :: 0 <= j < |rows| ==>
        rows[j].total == Stored(cart)[j].product.price * Stored(cart)[j].qty
    {
      var items := Read();
      rows := Rows(items);
    }

    /** The `Authorization` header the admin panel sends: `Bearer ${token}`,
        where a missing token is rendered as the text `null`. */
    method PanelAuthorization() returns (header: string)
      ensures token.Some? ==> header == "Bearer " + token.value
      ensures token.None? ==> header == "Bearer null"
    {
      if token.Some? {
        header := "Bearer " + token.value;
      } else {
        header := "Bearer null";
      }
    }
  }
}
