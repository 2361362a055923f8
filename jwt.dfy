/** The part of `jsonwebtoken` the server relies on. Signing and signature
    checking are foreign code, so a `Signer` carries them as two functions;
    the one rule modelled concretely is expiry: `expiresIn: '2h'` puts the
    expiry 7200 seconds after the issue time, and verification refuses a
    token once the current time in whole seconds has reached its expiry. */
module Jwt {
  import opened Wrappers

  /** `expiresIn: '2h'`, in seconds. */
  const TwoHours: int := 7200

  /** The decoded payload: `{ id }` plus the `iat` and `exp` claims the
      library adds, both in whole seconds. */
  datatype Claims = Claims(id: string, iat: int, exp: int)

  /** `sign(secret, claims)` is the compact token text; `open(secret, token)`
      is the payload when the token's signature checks against the secret. */
  datatype Signer = Signer(
    sign: (string, Claims) -> string,
    open: (string, string) -> Option<Claims>)

  /** Compact token text: never empty and never containing a space (its
      three segments are base64url text joined by dots). */
  predicate TokenText(t: string) {
    t != [] && ' ' !in t
  }

  /** What the library promises for one secret: a signed token opens to the
      payload it was signed with, and is compact token text. */
  ghost predicate Sound(s: Signer, secret: string) {
    forall c :: s.open(secret, s.sign(secret, c)) == Some(c) && TokenText(s.sign(secret, c))
  }

  /** `Math.floor(Date.now() / 1000)`. */
  function Seconds(nowMs: nat): nat {
    nowMs / 1000
  }

  datatype VerifyError = BadSignature | Expired

  /** `jwt.verify(token, secret)`: the payload, or the error it throws. */
  function Verify(s: Signer, secret: string, token: string, nowMs: nat): (r: Result<Claims, VerifyError>)
    ensures r.Ok? <==> s.open(secret, token).Some? && Seconds(nowMs) < s.open(secret, token).value.exp
    ensures r.Ok? ==> Some(r.value) == s.open(secret, token)
  {
    match s.open(secret, token)
    case None => Err(BadSignature)
    case Some(c) => if Seconds(nowMs) >= c.exp then Err(Expired) else Ok(c)
  }

  /** `jwt.sign({ id }, secret, { expiresIn: '2h' })` at time `nowMs`. */
  function Issue(s: Signer, secret: string, id: string, nowMs: nat): string {
    s.sign(secret, Claims(id, Seconds(nowMs), Seconds(nowMs) + TwoHours))
  }

  /** An issued token carries the admin's id, is issued now and expires two
      hours (7200 s) after issuance. */
  lemma IssuedClaims(s: Signer, secret: string, id: string, nowMs: nat)
    requires Sound(s, secret)
    ensures var c := s.open(secret, Issue(s, secret, id, nowMs));
      c.Some? && c.value.id == id && c.value.iat == Seconds(nowMs) && c.value.exp == c.value.iat + TwoHours
    ensures TokenText(Issue(s, secret, id, nowMs))
  {
    var c := Claims(id, Seconds(nowMs), Seconds(nowMs) + TwoHours);
    assert s.open(secret, s.sign(secret, c)) == Some(c) && TokenText(s.sign(secret, c));
  }

  /** A token issued at `issuedMs` verifies at `nowMs` exactly when fewer
      than 7200 whole seconds separate the two second counts. */
  lemma IssuedTokenLifetime(s: Signer, secret: string, id: string, issuedMs: nat, nowMs: nat)
    requires Sound(s, secret)
    ensures Verify(s, secret, Issue(s, secret, id, issuedMs), nowMs).Ok? <==> Seconds(nowMs) < Seconds(issuedMs) + TwoHours
  {
    IssuedClaims(s, secret, id, issuedMs);
  }

  /** Concretely: accepted at any time up to 1 h 59 min 59 s after issuance
      (so also at 1 h 59 min), refused from exactly 2 h on (so also at 2 h 1 min). */
  lemma IssuedTokenWindow(s: Signer, secret: string, id: string, issuedMs: nat, nowMs: nat)
    requires Sound(s, secret)
    ensures nowMs <= issuedMs + 7_199_000 ==> Verify(s, secret, Issue(s, secret, id, issuedMs), nowMs).Ok?
    ensures nowMs >= issuedMs + 7_200_000 ==> Verify(s, secret, Issue(s, secret, id, issuedMs), nowMs) == Err(Expired)
  {
    IssuedClaims(s, secret, id, issuedMs);
    if nowMs <= issuedMs + 7_199_000 {
      assert (issuedMs + 7_199_000) / 1000 == issuedMs / 1000 + 7199;
    }
    if nowMs >= issuedMs + 7_200_000 {
      assert (issuedMs + 7_200_000) / 1000 == issuedMs / 1000 + 7200;
    }
  }
}
