/** The records that travel between the storefront client and its server:
    products as the catalog serves them, cart lines as the client keeps them,
    and the body the checkout page posts. Prices are whole Toman amounts. */
module Shop {
  import opened Wrappers

  /** A catalog product as the server sends it (`_id`, name, price, image,
      description, category). */
  datatype Product = Product(
    id: string,
    name: string,
    price: int,
    image: string,
    description: string,
    category: string)

  /** A cart line: a copy of the product's fields (`{ ...product }`) plus `qty`. */
  datatype LineItem = LineItem(product: Product, qty: int)

  /** The contact fields of the checkout form. */
  datatype Form = Form(name: string, phone: string, address: string)

  /** The JSON body of `POST /api/orders`. The client never sends `createdAt`,
      but the server takes whatever body it receives, so the field is optional. */
  datatype OrderPayload = OrderPayload(
    name: string,
    phone: string,
    address: string,
    items: seq<LineItem>,
    createdAt: Option<int>)

  /** `{ ...form, items: cart }` */
  function PayloadOf(form: Form, items: seq<LineItem>): OrderPayload
  {
    OrderPayload(form.name, form.phone, form.address, items, None)
  }
}
