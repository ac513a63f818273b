/**
 * The route handlers of backend/server.js over the in-memory tables: register,
 * login, review submission and listing, and the token check route, each behind
 * the `authenticateToken` middleware where the source puts it.
 */
module Api {
  import opened Wrappers
  import opened Crypto
  import opened Middleware
  import opened Store

  /** The JSON bodies the handlers send. `StatusText` is the plain body
      `res.sendStatus` writes. */
  datatype Body =
    | Session(token: string, userId: UserId, name: string)
    | Error(error: string)
    | Message(message: string)
    | Verified(user: Claims)
    | ReviewList(reviews: seq<Review>)
    | StatusText

  datatype Response = Response(status: int, body: Body)

  /** `{ name, email, password }` of `POST /api/register`. */
  datatype RegisterBody = RegisterBody(name: string, email: string, password: string)

  const UserExists := Response(400, Error("User already exists"))
  const RegistrationFailed := Response(500, Error("Registration failed"))
  const InvalidCredentials := Response(400, Error("Invalid credentials"))
  const ReviewSubmitted := Response(201, Message("Review submitted successfully"))
  const ReviewFailed := Response(500, Error("Failed to submit review"))

  /** What the schemas and the unique index guarantee of the two collections:
      users are keyed by their own email, satisfy the user schema and have
      distinct ids below the next one to be issued; reviews satisfy the review
      schema. */
  ghost predicate TablesValid(users: map<string, User>, reviews: seq<Review>, nextId: nat)
  {
    && (forall e :: e in users ==> users[e].email == e && UserSchemaOk(users[e]) && users[e].id < nextId)
    && (forall e1, e2 :: e1 in users && e2 in users && e1 != e2 ==> users[e1].id != users[e2].id)
    && (forall i :: 0 <= i < |reviews| ==> ReviewSchemaOk(reviews[i]))
  }

  /** An incoming request: its `Authorization` header, and `req.user`, which
      the middleware sets. */
  class Request {
    const authorization: Option<string>
    var user: Option<Claims>

    constructor (authorization: Option<string>)
      ensures this.authorization == authorization && user == None
    {
      this.authorization := authorization;
      user := None;
    }
  }

  class Server {
    /** `process.env.JWT_SECRET || 'fallback_secret'`, fixed at start-up. */
    const secret: string
    const crypto: Primitives
    /** The `users` collection, by email. */
    var users: map<string, User>
    /** The `reviews` collection, in insertion order. */
    var reviews: seq<Review>
    /** The id the next saved user receives. */
    var nextId: nat

    ghost predicate Valid()
      reads this
    {
      TablesValid(users, reviews, nextId)
    }

    constructor (secret: string, crypto: Primitives)
      ensures Valid()
      ensures this.secret == secret && this.crypto == crypto
      ensures users == map[] && reviews == [] && nextId == 0
    {
      this.secret := secret;
      this.crypto := crypto;
      users := map[];
      reviews := [];
      nextId := 0;
    }

    /** `authenticateToken`: decides as `Authenticate` does, and on success
        attaches the verified claims to the request. */
    method AuthenticateToken(req: Request) returns (gate: Gate)
      modifies req
      ensures gate == Authenticate(req.authorization, secret, crypto.verify)
      ensures req.user == if gate.Continue? then Some(gate.user) else old(req.user)
    {
      var token := BearerToken(req.authorization);
      if token.None? {
        return Unauthorized;
      }
      var claims := crypto.verify(token.value, secret);
      if claims.None? {
        return Forbidden;
      }
      req.user := claims;
      gate := Continue(claims.value);
    }

    /** `POST /api/register`: check the email, hash, save, sign. */
    method Register(body: RegisterBody, salt: nat, now: int) returns (resp: Response)
      requires Valid()
      modifies this
      ensures Valid()
      ensures reviews == old(reviews)
      ensures body.email in old(users) ==>
        resp == UserExists && users == old(users) && nextId == old(nextId)
      ensures body.email !in old(users) ==>
        var user := User(old(nextId), body.name, body.email, crypto.hash(body.password, salt), now);
        if UserSchemaOk(user) then
          && users == old(users)[body.email := user]
          && |users| == |old(users)| + 1
          && nextId == old(nextId) + 1
          && resp == Response(201, Session(crypto.sign(Claims(user.id, body.email), secret),
                                           user.id, body.name))
        else
          resp == RegistrationFailed && users == old(users) && nextId == old(nextId)
    {
      if body.email in users {
        return UserExists;
      }
      var hashed := crypto.hash(body.password, salt);
      var user := User(nextId, body.name, body.email, hashed, now);
      if !UserSchemaOk(user) {
        // `user.save()` rejects the document and the handler's catch answers 500
        return RegistrationFailed;
      }
      users := users[body.email := user];
      nextId := nextId + 1;
      var token := crypto.sign(Claims(user.id, user.email), secret);
      resp := Response(201, Session(token, user.id, user.name));
    }

    /** `POST /api/login`: an unknown email and a wrong password get the same
        answer; the tables are only read. */
    method Login(email: string, password: string) returns (resp: Response)
      requires Valid()
      ensures resp.status == 400 <==>
        email !in users || !crypto.compare(password, users[email].password)
      ensures resp.status == 400 ==> resp == InvalidCredentials
      ensures resp.status != 400 ==>
        email in users &&
        var user := users[email];
        resp == Response(200, Session(crypto.sign(Claims(user.id, email), secret), user.id, user.name))
    {
      if email !in users {
        return InvalidCredentials;
      }
      var user := users[email];
      var validPassword := crypto.compare(password, user.password);
      if !validPassword {
        return InvalidCredentials;
      }
      var token := crypto.sign(Claims(user.id, user.email), secret);
      resp := Response(200, Session(token, user.id, user.name));
    }

    /** `POST /api/reviews` behind `authenticateToken`: the owner of the new
        review is the verified token's user; a review the schema rejects is
        not stored. */
    method PostReview(req: Request, body: ReviewBody, now: int) returns (resp: Response)
      requires Valid()
      modifies this, req
      ensures Valid()
      ensures users == old(users) && nextId == old(nextId)
      ensures match Authenticate(req.authorization, secret, crypto.verify)
        case Unauthorized =>
          resp == Response(401, StatusText) && reviews == old(reviews) && req.user == old(req.user)
        case Forbidden =>
          resp == Response(403, StatusText) && reviews == old(reviews) && req.user == old(req.user)
        case Continue(claims) =>
          && req.user == Some(claims)
          && match BuildReview(claims.userId, body, now)
             case None => resp == ReviewFailed && reviews == old(reviews)
             case Some(review) => resp == ReviewSubmitted && reviews == old(reviews) + [review]
    {
      var gate := AuthenticateToken(req);
      if !gate.Continue? {
        var status := if gate.Unauthorized? then 401 else 403;
        return Response(status, StatusText);
      }
      var review := BuildReview(req.user.value.userId, body, now);
      if review.None? {
        return ReviewFailed;
      }
      reviews := reviews + [review.value];
      resp := ReviewSubmitted;
    }

    /** `GET /api/reviews`: the newest ten reviews. */
    function ListReviews(): (resp: Response)
      reads this
      ensures resp.status == 200 && resp.body.ReviewList?
      ensures |resp.body.reviews| == if |reviews| <= ListingLimit then |reviews| else ListingLimit
      ensures NewestFirst(resp.body.reviews)
      ensures multiset(resp.body.reviews) <= multiset(reviews)
      ensures forall x, i ::
        0 <= i < |resp.body.reviews| && multiset(resp.body.reviews)[x] < multiset(reviews)[x] ==>
          x.createdAt <= resp.body.reviews[i].createdAt
    {
      ListingIsNewestTen(reviews);
      Response(200, ReviewList(Listing(reviews)))
    }

    /** `GET /api/verify` behind `authenticateToken`: `{ valid: true, user }`. */
    method VerifyRoute(req: Request) returns (resp: Response)
      modifies req
      ensures match Authenticate(req.authorization, secret, crypto.verify)
        case Unauthorized => resp == Response(401, StatusText) && req.user == old(req.user)
        case Forbidden => resp == Response(403, StatusText) && req.user == old(req.user)
        case Continue(claims) => resp == Response(200, Verified(claims)) && req.user == Some(claims)
    {
      var gate := AuthenticateToken(req);
      match gate
      case Unauthorized => resp := Response(401, StatusText);
      case Forbidden => resp := Response(403, StatusText);
      case Continue(_) => resp := Response(200, Verified(req.user.value));
    }
  }
}
