# NourShop storefront: cart store and admin gate

A Dafny model of the two pieces of sequential logic in the NourShop
storefront (a React client and an Express/Mongoose server):

- **The client's cart store.** The browser keeps the cart as an ordered list
  of lines under the `localStorage` key `cart`, one line per product `_id`.
  `addToCart` bumps the first line carrying the product's id or appends a
  copy of the product with `qty: 1`, then writes the whole list back. A
  missing cart reads as the empty list. Checkout refuses an empty cart,
  posts the form and the cart, and removes the stored cart once the reply's
  body parses. The cart page shows `price * qty` per line. The login page
  stores the token only when the reply carries a non-empty one.
  `Client.Browser` holds both storage keys as fields; its methods update
  them in place. The cart list itself is specified by pure functions in
  `Cart`.
- **The server's admin gate and login.** `authMiddleware` takes the second
  space-separated field of the `Authorization` header. It answers 401
  `Access denied` when there is none, and 400 `Invalid token` when
  `jwt.verify` throws. Otherwise it sets `req.admin` and calls `next()`.
  The login handler answers 404 `Admin not found`, then 401
  `Wrong password`, and otherwise signs `{ id }` with a two-hour expiry.
  Product creation and the order listing sit behind the gate. Order creation
  does not. The listing is sorted by `createdAt`, newest first, and
  `createdAt` defaults to the creation time.

Modules: `Wrappers` (Option, Result), `Shop` (wire records), `Cart`,
`Client`, `Jwt` (the token library as an abstract signer plus the concrete
expiry rule), `Orders`, `Http`, `Auth`, `Server` (routes and dispatch) and
`Flows` (client and server together).

Outside collaborators are parameters. JWT signing and signature checking are
the two functions of a `Jwt.Signer`. `Jwt.Sound` states the one property
relied on: a signed token opens to its payload and is compact text without
spaces. bcrypt's comparison is a function parameter. The clock is a
millisecond count. The document store is a value, with a flag for store
failure.

Behaviours of the code a reader might not expect:

- The server stores an order with an empty item list. Only the client
  refuses an empty cart (`Server.CreateOrderAppends`).
- The client clears the stored cart after ANY reply whose body parses as
  JSON. That includes the server's 400 `Failed to create order` reply, not
  only a successful one (`Client.Browser.SubmitOrder`,
  `Flows.CheckoutRefusedStillClears`).
- Expiry is checked in whole seconds. `iat` is the issue time in
  milliseconds divided by 1000, and the token is refused once the current
  second count reaches `iat + 7200`. So a token is accepted until
  1 h 59 min 59 s after issuance and refused from 2 h on.
- The admin panel sends `Bearer null` when no token is stored. That passes
  the 401 check and reaches the verifier.

## Model

| member | source | states |
|---|---|---|
| Cart.IndexOf | nourshop_client.jsx:99 | `cart.find` by id gives the first line with that id, or none exactly when no line has it |
| Cart.FindLine | nourshop_client.jsx:99 | the linear scan behind `cart.find` returns that same first matching position |
| Cart.AddLine | nourshop_client.jsx:97-102 | a present id keeps the length and an absent id appends `LineItem(p, 1)` at the end; every old line keeps its product fields and position, and lines with other ids are unchanged |
| Cart.AddExisting | nourshop_client.jsx:99-100 | adding a product already present raises the first matching line's qty by exactly 1 and keeps its stored fields, the cart length and every other line |
| Cart.AddNew | nourshop_client.jsx:101 | adding a product not present gives the old cart followed by one line carrying the product and qty 1 |
| Cart.AddKeepsUniqueIds | nourshop_client.jsx:99-101 | at most one line per id before an add implies the same after it |
| Cart.AddKeepsPositiveQuantities | nourshop_client.jsx:100-101 | all quantities positive before an add implies the same after it |
| Cart.AddRaisesTotalQtyByOne | nourshop_client.jsx:99-102 | the sum of all quantities grows by exactly 1 on every add |
| Cart.AddTwice | nourshop_client.jsx:99-101 | adding a new product twice gives one line with qty 2, not two lines |
| Cart.AddLineTotal | nourshop_client.jsx:135 | the bumped line's displayed total grows by that line's stored price |
| Cart.Rows | nourshop_client.jsx:131-136 | one cart-page row per line, in order, whose total is `price * qty` of that line |
| Client.Browser.Read | nourshop_client.jsx:124 | a missing stored cart reads as the empty list, a stored one as itself |
| Client.Browser.Add | nourshop_client.jsx:97-102 | the stored cart becomes the add of the product to the cart as read (missing = empty); uniqueness of ids and the +1 total follow; the token is untouched |
| Client.Browser.SubmitOrder | nourshop_client.jsx:154-168 | an empty cart sends no request and changes nothing; otherwise the posted body is the form plus the cart, and the stored cart is removed iff the reply's body parsed |
| Client.Browser.HandleLogin | nourshop_client.jsx:198-204 | the token is stored and the panel opened iff the reply carries a non-empty token; otherwise the stored state is unchanged |
| Client.Browser.CartPage | nourshop_client.jsx:124-136 | as many rows as stored lines, each showing `price * qty` of its line |
| Client.Browser.PanelAuthorization | nourshop_client.jsx:226-228 | the panel's header is `Bearer <token>`, or `Bearer null` with no stored token |
| Jwt.Verify | nourshop_complete.js:88 | verification succeeds iff the signature opens the token and the current second count is below `exp`, and then yields the payload |
| Jwt.IssuedClaims | nourshop_complete.js:186 | an issued token opens to the admin's id, `iat` = now in seconds and `exp` = `iat` + 7200, and is space-free non-empty text |
| Jwt.IssuedTokenLifetime | nourshop_complete.js:186 | an issued token verifies at a later time iff fewer than 7200 seconds have passed on the second count |
| Jwt.IssuedTokenWindow | nourshop_complete.js:186 | an issued token is accepted up to 1 h 59 min 59 s after issuance and refused as expired from 2 h on |
| Orders.Snapshots | nourshop_complete.js:52-60 | stored items are per-line copies of `_id`, name, price, qty and image, in cart order |
| Orders.NewOrder | nourshop_complete.js:61-64 | a new order's `createdAt` is the body's value if given, else the creation time; id, contact fields and item copies come from the body |
| Orders.Insert | nourshop_complete.js:159 | placing an order into a newest-first list keeps it newest first and adds exactly that order |
| Orders.SortNewestFirst | nourshop_complete.js:159 | the listing is a permutation of the stored orders with `createdAt` non-increasing |
| Auth.JoinSplit | nourshop_complete.js:85 | `split(' ')` loses nothing: gluing the fields back with single spaces gives the header |
| Auth.SplitFieldsHaveNoSpace | nourshop_complete.js:85 | no field of `split(' ')` contains a space |
| Auth.TokenIsSecondWord | nourshop_complete.js:85 | for `scheme + " " + token + tail`, with `tail` empty or starting with a space, the extracted token is `token`, whatever the scheme |
| Auth.ExtractedTokenShape | nourshop_complete.js:85-86 | an extracted token is non-empty and space-free, and starts right after the first space of the header and runs to the next space or the end |
| Auth.SchemeNotChecked | nourshop_complete.js:85-86 | `"X abc"` yields `"abc"`; a doubled space or a missing second field yields no token |
| Auth.GateOutcomes | nourshop_complete.js:84-94 | 401 iff no token; 400 iff a token that fails verification; admission iff it verifies, with `req.admin` the decoded payload |
| Auth.NoTokenSkipsVerifier | nourshop_complete.js:85-86 | with no token the answer does not depend on the signer, the secret or the clock |
| Auth.Exchange.AuthMiddleware | nourshop_complete.js:84-94 | a refusal sends the response and leaves `req.admin` and `next` alone; an admission sets `req.admin` and calls `next()` exactly once, sending nothing |
| Auth.FindAdmin | nourshop_complete.js:180 | `findOne` returns a stored admin with that username, or none exactly when no admin has it |
| Auth.LoginUnknownUser | nourshop_complete.js:180-181 | an unknown username gets 404 `Admin not found`, whatever the password comparison would say |
| Auth.LoginWrongPassword | nourshop_complete.js:183-184 | a known user whose password does not match gets 401 `Wrong password`, distinct from the 404 |
| Auth.LoginComparisonRejected | nourshop_complete.js:183-189 | a known user whose password comparison rejects (missing or non-string password) gets 500 `Login failed` and no token |
| Auth.LoginIssuesToken | nourshop_complete.js:180-187 | a token is issued iff the user exists and the comparison says the password matches; it opens to the admin's id with a two-hour expiry |
| Server.DeniedBeforeStore | nourshop_complete.js:157 | a protected route refused by the gate answers the gate's response with the store untouched, whatever the store holds |
| Server.ListOrdersWithoutHeader | nourshop_complete.js:157 | `GET /api/orders` without a header gets 401 `Access denied` and leaves the store unchanged |
| Server.GatedRoutes | nourshop_complete.js:126-157 | on product creation and the order listing the answer is the gate's refusal or the handler's result; on every other route, order creation included, it ignores the header |
| Server.ListOrdersNewestFirst | nourshop_complete.js:157-163 | an admitted listing returns all stored orders, newest first, and changes nothing |
| Server.CreateOrderAppends | nourshop_complete.js:146-153 | order creation answers 201 and appends exactly the new order, even with no items; `createdAt` defaults to the creation time |
| Server.FailureChangesNothing | nourshop_complete.js:105-163 | on a store failure every route leaves the store unchanged and answers 400, 401, 404 or 500 |
| Flows.AdminOpensPanel | nourshop_client.jsx:198-229 | after a successful login the client stores the token, and the panel's `Bearer` header is admitted as that admin for 1 h 59 min 59 s and refused with 400 from 2 h on |
| Flows.PanelWithoutTokenReachesVerifier | nourshop_client.jsx:226-228 | with no stored token the panel's `Bearer null` yields the token `null`, so the answer is never 401 |
| Flows.CheckoutTwoUnits | nourshop_client.jsx:97-167 | adding a product twice and checking out stores one item with qty 2 and the product's id, name, price and image, created at the server's clock; the server's reply removes the client's cart |
| Flows.CheckoutRefusedStillClears | nourshop_client.jsx:154-167 | when the store fails the server answers 400 and stores no order, yet that reply still removes the client's cart |

## Left out

- React rendering, routing, the navbar and footer, `alert` and `navigate`: these are UI. Only the cart page's rows and the login page's choice of next page are modelled.
- `fetch` and the asynchronous promise chain: each handler runs to completion. The server's reply is a parameter (`Client.Reply`, the login reply's token field).
- JSON and `localStorage` serialisation: a stored key is an `Option` of its value. A stored cart that does not parse, or that holds non-integer quantities, is not modelled.
- JWT cryptography and bcrypt: they are foreign library calls. They appear as the functions of `Jwt.Signer` and a comparison parameter that may reject. The `nbf` claim, algorithm options and a missing `JWT_SECRET` are not modelled.
- Jwt.Verify: every payload is assumed to carry `exp`. A token signed elsewhere without `exp`, which the library would accept for ever, is not modelled.
- The document store (Mongoose, MongoDB) is a value. Casting and validation errors are folded into the store-failure flag. Concurrent requests are not modelled.
- Server.Handle: `GET /api/products/:id` with a malformed id answers 404 through a cast error. The model answers 404 only on a store failure and otherwise `null` for a missing product.
- Server.Handle: a new product always gets the store's fresh id. An `_id` supplied in the request body is ignored.
- Orders.SortNewestFirst: the store promises no order among orders with equal `createdAt`. The model picks one admissible order.
- Auth.Exchange.AuthMiddleware: an exception thrown synchronously by the next handler would also be caught as 400 `Invalid token`. The handlers here are asynchronous, so this path is not modelled.
- Auth.FindAdmin: a request body without a `username` makes `findOne` match any admin. The model takes the username as a string.
- `POST /api/admin/seed`: it only hashes a password and saves a record, so there is no logic to state.
- The server start-up (`mongoose.connect`, `app.listen`, environment loading): this is I/O.
- Prices are JavaScript numbers. They are modelled as integers (Toman amounts), and floating-point rounding is not modelled.
