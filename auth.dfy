/** The admin side of the server: the `authMiddleware` gate in front of
    protected routes and the `/api/admin/login` decision. */
module Auth {
  import opened Wrappers
  import opened Jwt
  import opened Http

  // ---------------------------------------------------------------------------
  // Reading the token out of the Authorization header

  /** JavaScript's `s.split(' ')`: the pieces between single spaces, empty
      pieces included (`"".split(' ')` is `[""]`). */
  function Split(s: string): (fields: seq<string>)
    ensures |fields| >= 1
  {
    if s == [] then [[]]
    else
      var rest := Split(s[1..]);
      if s[0] == ' ' then [[]] + rest else [[s[0]] + rest[0]] + rest[1..]
  }

  /** The inverse of `Split`: the fields glued back with single spaces. */
  function Join(fields: seq<string>): string
    requires |fields| >= 1
  {
    if |fields| == 1 then fields[0] else fields[0] + " " + Join(fields[1..])
  }

  lemma {:induction false} JoinSplit(s: string)
    ensures Join(Split(s)) == s
  {
    if s != [] {
      var rest := Split(s[1..]);
      JoinSplit(s[1..]);
      if s[0] == ' ' {
        assert Split(s)[1..] == rest;
      } else {
        var f := Split(s);
        assert f[0] == [s[0]] + rest[0];
        if |rest| == 1 {
          assert s == [s[0]] + s[1..];
        } else {
          assert f[1..] == rest[1..];
          assert s == [s[0]] + s[1..];
        }
      }
    }
  }

  lemma {:induction false} SplitFieldsHaveNoSpace(s: string)
    ensures forall k :: 0 <= k < |Split(s)| ==> ' ' !in Split(s)[k]
  {
    if s != [] {
      SplitFieldsHaveNoSpace(s[1..]);
    }
  }

  /** A word without spaces splits to itself. */
  lemma {:induction false} SplitWord(w: string)
    requires ' ' !in w
    ensures Split(w) == [w]
  {
    if w != [] {
      SplitWord(w[1..]);
      assert [w[0]] + w[1..] == w;
    }
  }

  /** A word without spaces followed by a space is the first field. */
  lemma {:induction false} SplitAfterWord(w: string, rest: string)
    requires ' ' !in w
    ensures Split(w + " " + rest) == [w] + Split(rest)
  {
    if w == [] {
      assert w + " " + rest == [' '] + rest;
      assert ([' '] + rest)[1..] == rest;
    } else {
      var s := w + " " + rest;
      assert s[1..] == w[1..] + " " + rest;
      SplitAfterWord(w[1..], rest);
      assert [w[0]] + w[1..] == w;
    }
  }

  /** `req.headers.authorization?.split(' ')[1]`, and `!token`: the second
      space-separated field of the header, absent when the header is
      missing, has no second field, or that field is empty. */
  function ExtractToken(authorization: Option<string>): Option<string> {
    match authorization
    case None => None
    case Some(h) =>
      var fields := Split(h);
      if |fields| < 2 || fields[1] == [] then None else Some(fields[1])
  }

  /** The token is exactly the second space-separated word; the first word
      (the scheme) is never looked at, and anything after a further space is
      ignored. */
  lemma TokenIsSecondWord(scheme: string, token: string, tail: string)
    requires ' ' !in scheme && ' ' !in token && token != []
    requires tail == [] || tail[0] == ' '
    ensures ExtractToken(Some(scheme + " " + token + tail)) == Some(token)
  {
    var h := scheme + " " + token + tail;
    assert h == scheme + " " + (token + tail);
    SplitAfterWord(scheme, token + tail);
    if tail == [] {
      assert token + tail == token;
      SplitWord(token);
    } else {
      assert token + tail == token + " " + tail[1..];
      SplitAfterWord(token, tail[1..]);
    }
  }

  /** Conversely, an extracted token is a non-empty word without spaces that
      starts right after the first space of the header (at position `k`) and
      runs to the next space or the end. */
  lemma ExtractedTokenShape(h: string)
    requires ExtractToken(Some(h)).Some?
    ensures var t, k := ExtractToken(Some(h)).value, |Split(h)[0]|;
      t != [] && ' ' !in t && k + 1 + |t| <= |h| &&
      ' ' !in h[..k] && h[k] == ' ' && h[k + 1..k + 1 + |t|] == t &&
      (k + 1 + |t| == |h| || h[k + 1 + |t|] == ' ')
  {
    var f := Split(h);
    var t := f[1];
    JoinSplit(h);
    SplitFieldsHaveNoSpace(h);
    assert ' ' !in f[0] && ' ' !in t;
    var tail := if |f| == 2 then [] else " " + Join(f[2..]);
    assert Join(f) == f[0] + " " + Join(f[1..]);
    if |f| == 2 {
      assert Join(f[1..]) == t;
    } else {
      assert f[1..][1..] == f[2..];
      assert Join(f[1..]) == t + " " + Join(f[2..]);
    }
    assert ExtractToken(Some(h)) == Some(t);
    assert tail == [] || tail[0] == ' ';
    assert ' ' !in f[0] && h == f[0] + " " + t + tail;
    var k := |f[0]|;
    assert h[..k] == f[0];
    assert h[k + 1..k + 1 + |t|] == t;
  }

  /** The scheme word is not checked: `"X abc"` yields `"abc"`. */
  lemma SchemeNotChecked()
    ensures ExtractToken(Some("X abc")) == Some("abc")
    ensures ExtractToken(Some("Bearer  abc")) == None
    ensures ExtractToken(Some("Bearer")) == None
  {
    assert "X abc" == "X" + " " + "abc" + "";
    TokenIsSecondWord("X", "abc", "");
    assert "Bearer  abc" == "Bearer" + " " + " abc";
    SplitAfterWord("Bearer", " abc");
    assert " abc" == [] + " " + "abc";
    SplitAfterWord([], "abc");
    SplitWord("Bearer");
  }

  // ---------------------------------------------------------------------------
  // authMiddleware

  const AccessDenied: string := "Access denied"
  const InvalidToken: string := "Invalid token"

  /** What the gate decides for one request: let it through with the decoded
      payload, or answer it. */
  datatype GateResult = Admit(admin: Claims) | Deny(response: Response)

  /** The gate's decision: 401 without a token, 400 when `jwt.verify` throws,
      and otherwise admission with the decoded payload. */
  function Gate(authorization: Option<string>, s: Signer, secret: string, nowMs: nat): GateResult {
    match ExtractToken(authorization)
    case None => Deny(Error(401, AccessDenied))
    case Some(t) =>
      match Verify(s, secret, t, nowMs)
      case Err(_) => Deny(Error(400, InvalidToken))
      case Ok(c) => Admit(c)
  }

  /** The three outcomes of the gate, each with both directions. */
  lemma GateOutcomes(authorization: Option<string>, s: Signer, secret: string, nowMs: nat)
    ensures Gate(authorization, s, secret, nowMs) == Deny(Error(401, AccessDenied))
        <==> ExtractToken(authorization).None?
    ensures Gate(authorization, s, secret, nowMs) == Deny(Error(400, InvalidToken))
        <==> ExtractToken(authorization).Some? && Verify(s, secret, ExtractToken(authorization).value, nowMs).Err?
    ensures Gate(authorization, s, secret, nowMs).Admit?
        <==> ExtractToken(authorization).Some? && Verify(s, secret, ExtractToken(authorization).value, nowMs).Ok?
    ensures Gate(authorization, s, secret, nowMs).Admit? ==>
        Some(Gate(authorization, s, secret, nowMs).admin) == s.open(secret, ExtractToken(authorization).value)
  {
  }

  /** Without a token the verifier is never consulted: the answer does not
      depend on the signer, the secret or the clock. */
  lemma NoTokenSkipsVerifier(authorization: Option<string>, s1: Signer, secret1: string, now1: nat,
                             s2: Signer, secret2: string, now2: nat)
    requires ExtractToken(authorization).None?
    ensures Gate(authorization, s1, secret1, now1) == Gate(authorization, s2, secret2, now2)
  {
  }

  /** One request/response exchange as the middleware sees it: the request's
      Authorization header, the `req.admin` slot, the response sent so far
      and how many times `next()` has been called. */
  class Exchange {
    const authorization: Option<string>
    var admin: Option<Claims>
    var response: Option<Response>
    var nextCalls: nat

    constructor (authorization: Option<string>)
      ensures this.authorization == authorization
      ensures admin == None && response == None && nextCalls == 0
    {
      this.authorization := authorization;
      admin := None;
      response := None;
      nextCalls := 0;
    }

    /** `authMiddleware(req, res, next)`: either answers the request and
        leaves `req.admin` and `next` alone, or sets `req.admin` to the
        decoded payload and calls `next()` exactly once without answering. */
    method AuthMiddleware(s: Signer, secret: string, nowMs: nat)
      modifies this
      ensures match Gate(authorization, s, secret, nowMs)
        case Admit(c) =>
          admin == Some(c) && nextCalls == old(nextCalls) + 1 && response == old(response)
        case Deny(r) =>
          response == Some(r) && admin == old(admin) && nextCalls == old(nextCalls)
    {
      var token := ExtractToken(authorization);
      if token.None? {
        response := Some(Error(401, AccessDenied));
        return;
      }
      var decoded := Verify(s, secret, token.value, nowMs);
      if decoded.Err? {
        response := Some(Error(400, InvalidToken));
        return;
      }
      admin := Some(decoded.value);
      nextCalls := nextCalls + 1;
    }
  }

  // ---------------------------------------------------------------------------
  // POST /api/admin/login

  /** An Admin record: its `_id`, username and bcrypt hash. */
  datatype Admin = Admin(id: string, username: string, passwordHash: string)

  /** `Admin.findOne({ username })`: the first record with that username. */
  function FindAdmin(admins: seq<Admin>, username: string): (r: Option<Admin>)
    ensures r.Some? ==> r.value in admins && r.value.username == username
    ensures r.None? ==> forall a :: a in admins ==> a.username != username
  {
    if admins == [] then None
    else if admins[0].username == username then Some(admins[0])
    else FindAdmin(admins[1..], username)
  }

  const AdminNotFound: string := "Admin not found"
  const WrongPassword: string := "Wrong password"
  const LoginFailed: string := "Login failed"

  /** `bcrypt.compare(password, hash)`: whether the password matches the
      hash, or `None` when the promise rejects (a missing or non-string
      password in the request body, or a malformed hash). */
  type Compare = (string, string) -> Option<bool>

  /** The login handler. `admins` is `None` when the store query fails; a
      failed query and a rejected comparison both reach the `catch` and are
      answered 500. */
  function Login(admins: Option<seq<Admin>>, username: string, password: string,
                 compare: Compare, s: Signer, secret: string, nowMs: nat): Response
  {
    match admins
    case None => Error(500, LoginFailed)
    case Some(all) =>
      match FindAdmin(all, username)
      case None => Error(404, AdminNotFound)
      case Some(a) =>
        match compare(password, a.passwordHash)
        case None => Error(500, LoginFailed)
        case Some(false) => Error(401, WrongPassword)
        case Some(true) => Response(200, TokenBody(Issue(s, secret, a.id, nowMs)))
  }

  /** An unknown username is answered 404 before any password comparison:
      the answer is the same whatever `compare` would say. */
  lemma LoginUnknownUser(all: seq<Admin>, username: string, password: string,
                         compare1: Compare, compare2: Compare,
                         s: Signer, secret: string, nowMs: nat)
    requires forall a :: a in all ==> a.username != username
    ensures Login(Some(all), username, password, compare1, s, secret, nowMs) == Error(404, AdminNotFound)
    ensures Login(Some(all), username, password, compare2, s, secret, nowMs) == Error(404, AdminNotFound)
  {
  }

  /** A known username with a password that does not match its hash is
      answered 401, a reason distinct from the unknown-user one. */
  lemma LoginWrongPassword(all: seq<Admin>, a: Admin, password: string,
                           compare: Compare, s: Signer, secret: string, nowMs: nat)
    requires FindAdmin(all, a.username) == Some(a)
    requires compare(password, a.passwordHash) == Some(false)
    ensures Login(Some(all), a.username, password, compare, s, secret, nowMs) == Error(401, WrongPassword)
    ensures Error(401, WrongPassword) != Error(404, AdminNotFound)
  {
  }

  /** A known username whose password comparison rejects (no password, or
      not a string) is answered 500 `Login failed`, without a token. */
  lemma LoginComparisonRejected(all: seq<Admin>, a: Admin, password: string,
                                compare: Compare, s: Signer, secret: string, nowMs: nat)
    requires FindAdmin(all, a.username) == Some(a)
    requires compare(password, a.passwordHash) == None
    ensures Login(Some(all), a.username, password, compare, s, secret, nowMs) == Error(500, LoginFailed)
  {
  }

  /** A token is issued exactly when the username is known and the password
      comparison says it matches; the token opens to the admin's id, issued
      now, expiring two hours later. */
  lemma LoginIssuesToken(all: seq<Admin>, username: string, password: string,
                         compare: Compare, s: Signer, secret: string, nowMs: nat)
    requires Sound(s, secret)
    ensures var r := Login(Some(all), username, password, compare, s, secret, nowMs);
      r.body.TokenBody? <==>
        FindAdmin(all, username).Some? && compare(password, FindAdmin(all, username).value.passwordHash) == Some(true)
    ensures var r := Login(Some(all), username, password, compare, s, secret, nowMs);
      r.body.TokenBody? ==>
        r.status == 200 && TokenText(r.body.token) &&
        s.open(secret, r.body.token) ==
          Some(Claims(FindAdmin(all, username).value.id, Seconds(nowMs), Seconds(nowMs) + TwoHours))
  {
    match FindAdmin(all, username)
    case None =>
    case Some(a) =>
      IssuedClaims(s, secret, a.id, nowMs);
  }
}
