/**
 * The two cryptographic libraries the server delegates to, bcrypt and
 * jsonwebtoken, as uninterpreted operations. Nothing about them is assumed
 * beyond `Sound`, and only the lemmas that say so depend on it.
 */
module Crypto {
  import opened Wrappers

  /** A MongoDB ObjectId; only its identity matters here. */
  type UserId = nat

  /** The payload the server signs: `{ userId, email }`. */
  datatype Claims = Claims(userId: UserId, email: string)

  datatype Primitives = Primitives(
    /** `bcrypt.hash(password, 10)`; the random salt it draws is the second argument. */
    hash: (string, nat) -> string,
    /** `bcrypt.compare(password, digest)`. */
    compare: (string, string) -> bool,
    /** `jwt.sign(claims, secret, { expiresIn: '24h' })`. */
    sign: (Claims, string) -> string,
    /** `jwt.verify(token, secret)`: the payload, or `None` for a malformed,
        forged or expired token. */
    verify: (string, string) -> Option<Claims>)

  /** The minimal behaviour relied on: a digest is non-empty and a password
      matches its own digest; a token checked before it expires (within its
      24 hours) verifies, under the secret that signed it, to the claims it was
      signed with; a signed token (three base64url segments joined by dots) is
      non-empty and holds no space. Anything else may fail. There is no clock
      here, so `Sound` describes checks made before expiry. */
  ghost predicate Sound(p: Primitives)
  {
    && (forall password, salt :: p.hash(password, salt) != [] && p.compare(password, p.hash(password, salt)))
    && (forall c, secret :: p.verify(p.sign(c, secret), secret) == Some(c))
    && (forall c, secret :: p.sign(c, secret) != [] && ' ' !in p.sign(c, secret))
  }
}

/**
 * `authenticateToken` (backend/server.js): the bearer-header middleware in
 * front of the protected routes.
 */
module Middleware {
  import opened Wrappers
  import opened Text
  import opened Crypto

  /** The three ways the middleware ends: `sendStatus(401)`, `sendStatus(403)`,
      or `req.user = claims; next()`. */
  datatype Gate = Unauthorized | Forbidden | Continue(user: Claims)

  /** The text of a JavaScript string used as a condition: `undefined` and ""
      are falsy. */
  predicate Truthy(s: Option<string>)
  {
    s.Some? && s.value != []
  }

  /** `authHeader && authHeader.split(' ')[1]`, kept only when truthy: the
      second space-separated field of the header. The first field (the scheme
      word) is never looked at. */
  function BearerToken(header: Option<string>): (token: Option<string>)
    ensures token.Some? ==> token.value != [] && ' ' !in token.value
    ensures token.Some? ==>
      Truthy(header) && |Split(header.value, ' ')| >= 2 && token.value == Split(header.value, ' ')[1]
  {
    if !Truthy(header) then None
    else
      var fields := Split(header.value, ' ');
      if |fields| < 2 || fields[1] == [] then None else Some(fields[1])
  }

  /** The middleware's decision for a request carrying `header`. */
  function Authenticate(header: Option<string>, secret: string,
                        verify: (string, string) -> Option<Claims>): (gate: Gate)
    ensures gate.Unauthorized? <==> BearerToken(header).None?
    ensures gate.Forbidden? <==>
      BearerToken(header).Some? && verify(BearerToken(header).value, secret).None?
    ensures gate.Continue? ==>
      BearerToken(header).Some? && verify(BearerToken(header).value, secret) == Some(gate.user)
  {
    match BearerToken(header)
    case None => Unauthorized
    case Some(token) =>
      match verify(token, secret)
      case None => Forbidden
      case Some(claims) => Continue(claims)
  }

  /** No header, or a header without a space, is answered 401 before any
      verification. */
  lemma NoSecondFieldIsUnauthorized(header: Option<string>, secret: string,
                                    verify: (string, string) -> Option<Claims>)
    requires header.None? || ' ' !in header.value
    ensures Authenticate(header, secret, verify) == Unauthorized
  {
    if header.Some? {
      SplitWithoutSeparator(header.value, ' ');
    }
  }

  /** The token is whatever follows the first space up to the next one,
      whatever the scheme word is: `Basic t` is accepted like `Bearer t`. */
  lemma TokenFollowsFirstSpace(scheme: string, rest: string)
    requires ' ' !in scheme
    ensures var first := Split(rest, ' ')[0];
      BearerToken(Some(scheme + [' '] + rest)) == if first == [] then None else Some(first)
  {
    FieldsAfterFirstSeparator(scheme, rest, ' ');
  }

  /** An empty second field (`"Bearer "`, or two spaces after the scheme) is
      answered 401 just like a missing header. */
  lemma EmptySecondFieldIsUnauthorized(scheme: string, rest: string, secret: string,
                                       verify: (string, string) -> Option<Claims>)
    requires ' ' !in scheme
    requires rest == [] || rest[0] == ' '
    ensures Authenticate(Some(scheme + [' '] + rest), secret, verify) == Unauthorized
  {
    TokenFollowsFirstSpace(scheme, rest);
    if rest != [] {
      assert rest == [] + [' '] + rest[1..];
      SplitAtSeparator([], rest[1..], ' ');
    }
  }

  /** Any one-word scheme followed by a space-free token yields that token. */
  lemma SchemeWordNotChecked(scheme: string, token: string)
    requires ' ' !in scheme && ' ' !in token && token != []
    ensures BearerToken(Some(scheme + [' '] + token)) == Some(token)
  {
    TokenFollowsFirstSpace(scheme, token);
    SplitWithoutSeparator(token, ' ');
  }

  /** A token the server signed passes the middleware, before it expires,
      with exactly the claims it was signed with. */
  lemma SignedTokenAccepted(p: Primitives, claims: Claims, secret: string)
    requires Sound(p)
    ensures Authenticate(Some("Bearer " + p.sign(claims, secret)), secret, p.verify)
            == Continue(claims)
  {
    var token := p.sign(claims, secret);
    assert "Bearer " == "Bearer" + [' '];
    SchemeWordNotChecked("Bearer", token);
  }
}
