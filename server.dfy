/** The server's HTTP surface: which routes sit behind `authMiddleware`, what
    each handler answers, and how the document store changes. The store is
    a value here; `available` is false when its queries and writes fail. */
module Server {
  import opened Wrappers
  import opened Shop
  import opened Orders
  import opened Jwt
  import opened Http
  import opened Auth

  datatype Route =
    | ListProducts                          // GET  /api/products
    | ShowProduct(id: string)               // GET  /api/products/:id
    | CreateProduct(fields: Product)        // POST /api/products
    | CreateOrder(payload: OrderPayload)    // POST /api/orders
    | ListOrders                            // GET  /api/orders
    | AdminLogin(username: string, password: string)  // POST /api/admin/login

  datatype Request = Request(route: Route, authorization: Option<string>)

  datatype Db = Db(products: seq<Product>, orders: seq<Order>, admins: seq<Admin>, available: bool)

  /** What the handlers take from outside the request: the JWT library and
      secret, bcrypt's comparison, the clock and the store's next `_id`. */
  datatype Env = Env(
    signer: Signer,
    secret: string,
    compare: Compare,
    nowMs: nat,
    freshId: string)

  datatype Outcome = Outcome(response: Response, db: Db)

  /** The routes registered with `auth` in front of the handler. */
  predicate Protected(route: Route) {
    route.CreateProduct? || route.ListOrders?
  }

  /** `Product.findById(id)`: the first product with that id. */
  function FindProduct(products: seq<Product>, id: string): Option<Product> {
    if products == [] then None
    else if products[0].id == id then Some(products[0])
    else FindProduct(products[1..], id)
  }

  /** The route handlers, each with its own `catch`. */
  function Handle(route: Route, db: Db, env: Env): Outcome {
    match route
    case ListProducts =>
      if !db.available then Outcome(Error(500, "Failed to fetch products"), db)
      else Outcome(Response(200, ProductsBody(db.products)), db)
    case ShowProduct(id) =>
      if !db.available then Outcome(Error(404, "Product not found"), db)
      else Outcome(Response(200, ProductBody(FindProduct(db.products, id))), db)
    case CreateProduct(fields) =>
      if !db.available then Outcome(Error(400, "Failed to save product"), db)
      else
        var p := fields.(id := env.freshId);
        Outcome(Response(200, ProductBody(Some(p))), db.(products := db.products + [p]))
    case CreateOrder(payload) =>
      if !db.available then Outcome(Error(400, "Failed to create order"), db)
      else
        var o := NewOrder(payload, env.freshId, env.nowMs);
        Outcome(Response(201, OrderBody(o)), db.(orders := db.orders + [o]))
    case ListOrders =>
      if !db.available then Outcome(Error(500, "Failed to fetch orders"), db)
      else Outcome(Response(200, OrdersBody(SortNewestFirst(db.orders))), db)
    case AdminLogin(username, password) =>
      var admins := if db.available then Some(db.admins) else None;
      Outcome(Login(admins, username, password, env.compare, env.signer, env.secret, env.nowMs), db)
  }

  /** One request through the router: protected routes pass the gate first. */
  function Serve(req: Request, db: Db, env: Env): Outcome {
    if Protected(req.route) then
      match Gate(req.authorization, env.signer, env.secret, env.nowMs)
      case Deny(r) => Outcome(r, db)
      case Admit(_) => Handle(req.route, db, env)
    else
      Handle(req.route, db, env)
  }

  /** On a protected route, a request the gate turns away gets the gate's
      answer and the store is untouched; the answer does not depend on the
      store at all, so it is given before any store access. */
  lemma DeniedBeforeStore(route: Route, authorization: Option<string>, db1: Db, db2: Db, env: Env)
    requires Protected(route) && Gate(authorization, env.signer, env.secret, env.nowMs).Deny?
    ensures Serve(Request(route, authorization), db1, env) ==
      Outcome(Gate(authorization, env.signer, env.secret, env.nowMs).response, db1)
    ensures Serve(Request(route, authorization), db1, env).response ==
      Serve(Request(route, authorization), db2, env).response
  {
  }

  /** `GET /api/orders` without an Authorization header is refused with 401
      `Access denied`, whatever the store holds. */
  lemma ListOrdersWithoutHeader(db: Db, env: Env)
    ensures Serve(Request(ListOrders, None), db, env) == Outcome(Error(401, AccessDenied), db)
  {
  }

  /** On product creation and the order listing the answer is the gate's
      refusal or the handler's result; every other route, order creation
      included, answers the same whatever header is sent. */
  lemma GatedRoutes(route: Route, h1: Option<string>, h2: Option<string>, db: Db, env: Env)
    ensures (route.CreateProduct? || route.ListOrders?) ==>
      Serve(Request(route, h1), db, env) ==
        match Gate(h1, env.signer, env.secret, env.nowMs)
        case Deny(r) => Outcome(r, db)
        case Admit(_) => Handle(route, db, env)
    ensures !(route.CreateProduct? || route.ListOrders?) ==> Serve(Request(route, h1), db, env) == Serve(Request(route, h2), db, env)
  {
  }

  /** The order listing, once admitted: every stored order, newest first,
      and nothing stored changes. */
  lemma ListOrdersNewestFirst(authorization: Option<string>, db: Db, env: Env)
    requires Gate(authorization, env.signer, env.secret, env.nowMs).Admit?
    requires db.available
    ensures var out := Serve(Request(ListOrders, authorization), db, env);
      out.db == db && out.response.status == 200 && out.response.body.OrdersBody? &&
      NewestFirst(out.response.body.orders) &&
      multiset(out.response.body.orders) == multiset(db.orders)
  {
  }

  /** Order creation needs no token and appends exactly one order, whose
      `createdAt` is the creation time unless the body supplied one. The
      server does not refuse an empty item list. */
  lemma CreateOrderAppends(payload: OrderPayload, authorization: Option<string>, db: Db, env: Env)
    requires db.available
    ensures var out := Serve(Request(CreateOrder(payload), authorization), db, env);
      out.response.status == 201 &&
      out.db == db.(orders := db.orders + [NewOrder(payload, env.freshId, env.nowMs)]) &&
      (payload.createdAt.None? ==> out.db.orders[|db.orders|].createdAt == env.nowMs) &&
      out.db.orders[|db.orders|].items == Snapshots(payload.items)
  {
  }

  /** A store failure leaves the store as it was, on every route. */
  lemma FailureChangesNothing(req: Request, db: Db, env: Env)
    requires !db.available
    ensures Serve(req, db, env).db == db
    ensures Serve(req, db, env).response.status in {400, 401, 404, 500}
  {
  }
}
