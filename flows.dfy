/** Client and server together: the admin signing in and opening the order
    panel, and a shopper adding a product twice and checking out. */
module Flows {
  import opened Wrappers
  import opened Shop
  import opened Cart
  import opened Client
  import opened Orders
  import opened Jwt
  import opened Http
  import opened Auth
  import opened Server

  /** The admin logs in at `loginMs`; the client stores the token and the
      panel sends it as `Bearer <token>` at `laterMs`. The gate admits the
      admin's id for 1 h 59 min 59 s and answers 400 from two hours on. */
  method AdminOpensPanel(all: seq<Admin>, a: Admin, password: string, compare: Compare,
                         s: Signer, secret: string, loginMs: nat, laterMs: nat)
    returns (stored: bool, decision: GateResult)
    requires Sound(s, secret)
    requires FindAdmin(all, a.username) == Some(a) && compare(password, a.passwordHash) == Some(true)
    ensures stored
    ensures laterMs <= loginMs + 7_199_000 ==> decision.Admit? && decision.admin.id == a.id
    ensures laterMs >= loginMs + 7_200_000 ==> decision == Deny(Error(400, InvalidToken))
  {
    var browser := new Browser();
    var reply := Login(Some(all), a.username, password, compare, s, secret, loginMs);
    LoginIssuesToken(all, a.username, password, compare, s, secret, loginMs);
    var replied := if reply.body.TokenBody? then Some(reply.body.token) else None;
    stored := browser.HandleLogin(replied);
    var header := browser.PanelAuthorization();
    var t := reply.body.token;
    assert header == "Bearer" + " " + t + "";
    TokenIsSecondWord("Bearer", t, "");
    decision := Gate(Some(header), s, secret, laterMs);
    assert t == Issue(s, secret, a.id, loginMs);
    IssuedTokenWindow(s, secret, a.id, loginMs, laterMs);
  }

  /** A panel opened without a stored token sends `Bearer null`: that passes
      the token-presence check, so the answer is never 401. */
  lemma PanelWithoutTokenReachesVerifier(s: Signer, secret: string, nowMs: nat)
    ensures ExtractToken(Some("Bearer null")) == Some("null")
    ensures Gate(Some("Bearer null"), s, secret, nowMs) != Deny(Error(401, AccessDenied))
  {
    assert "Bearer null" == "Bearer" + " " + "null" + "";
    TokenIsSecondWord("Bearer", "null", "");
  }

  /** A shopper adds the same product twice and checks out; the server
      stores one item with quantity 2 and the product's id, name, price and
      image, created at the server's clock, and its reply clears the
      client's cart. */
  method CheckoutTwoUnits(p: Product, form: Form, db: Db, env: Env)
    returns (order: Order, cartAfter: Option<seq<LineItem>>)
    requires db.available
    ensures order.items == [OrderItem(p.id, p.name, p.price, 2, p.image)]
    ensures order.createdAt == env.nowMs
    ensures order.name == form.name && order.phone == form.phone && order.address == form.address
    ensures cartAfter == None
  {
    var browser := AddTwiceToFreshCart(p);
    var out := Serve(Request(CreateOrder(PayloadOf(form, [LineItem(p, 2)])), None), db, env);
    var request := browser.SubmitOrder(form, Answered(out.response.status));
    assert request == Some(PayloadOf(form, [LineItem(p, 2)]));
    order := out.db.orders[|db.orders|];
    cartAfter := browser.cart;
  }

  /** When the store fails, the server refuses the order with 400 and stores
      nothing, yet its reply still clears the client's cart. */
  method CheckoutRefusedStillClears(p: Product, form: Form, db: Db, env: Env)
    returns (status: int, stored: bool, cartAfter: Option<seq<LineItem>>)
    requires !db.available
    ensures status == 400 && !stored
    ensures cartAfter == None
  {
    var browser := AddTwiceToFreshCart(p);
    var out := Serve(Request(CreateOrder(PayloadOf(form, [LineItem(p, 2)])), None), db, env);
    status := out.response.status;
    stored := |out.db.orders| > |db.orders|;
    var request := browser.SubmitOrder(form, Answered(status));
    cartAfter := browser.cart;
  }

  /** A fresh browser on which the shopper adds `p` twice. */
  method AddTwiceToFreshCart(p: Product) returns (browser: Browser)
    ensures fresh(browser) && browser.cart == Some([LineItem(p, 2)])
  {
    browser := new Browser();
    browser.Add(p);
    assert browser.cart == Some(AddLine([], p));
    browser.Add(p);
    assert browser.cart == Some(AddLine(AddLine([], p), p));
    AddTwice([], p);
    assert [] + [LineItem(p, 2)] == [LineItem(p, 2)];
  }
}
