/** The server's replies: a status code and a JSON body. */
module Http {
  import opened Wrappers
  import opened Shop
  import opened Orders

  datatype Body =
    | ErrorBody(error: string)          // `{ error: ... }`
    | TokenBody(token: string)          // `{ token }`
    | ProductsBody(products: seq<Product>)
    | ProductBody(product: Option<Product>)  // `null` when no product matches
    | OrderBody(order: Order)
    | OrdersBody(orders: seq<Order>)

  datatype Response = Response(status: int, body: Body)

  /** `res.status(status).json({ error })` */
  function Error(status: int, message: string): Response {
    Response(status, ErrorBody(message))
  }
}
