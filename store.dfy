/**
 * The two Mongoose collections of backend/server.js as in-memory tables:
 * the records, the schema constraints a `save()` enforces, and the
 * `find().sort({ createdAt: -1 }).limit(10)` listing.
 */
module Store {
  import opened Wrappers
  import opened Crypto

  /** A stored user; `password` holds the bcrypt digest. */
  datatype User = User(id: UserId, name: string, email: string, password: string, createdAt: int)

  /** A stored review. `image` is the only field the schema leaves optional. */
  datatype Review = Review(userId: UserId, name: string, image: Option<string>,
                           description: string, rating: int, createdAt: int)

  /** The review fields of a request body; `None` is a field that is absent,
      and for `rating` also one Mongoose cannot cast to a number. A `userId`
      in the body is carried only to show that it is never read. */
  datatype ReviewBody = ReviewBody(name: Option<string>, image: Option<string>,
                                   description: Option<string>, rating: Option<int>,
                                   userId: Option<UserId>)

  /** Mongoose's `required` check on a string: present and not "". */
  predicate Required(s: Option<string>)
  {
    s.Some? && s.value != []
  }

  /** The user schema: name, email and password are required strings. */
  predicate UserSchemaOk(u: User)
  {
    u.name != [] && u.email != [] && u.password != []
  }

  /** The review schema: name and description required, rating in 1..5. */
  predicate ReviewSchemaOk(r: Review)
  {
    r.name != [] && r.description != [] && 1 <= r.rating <= 5
  }

  /** `new Review({ userId: req.user.userId, name, image, description, rating })`
      followed by the validation `save()` runs: the review to store, or `None`
      when validation throws. */
  function BuildReview(userId: UserId, body: ReviewBody, now: int): (r: Option<Review>)
    ensures r.Some? <==>
      Required(body.name) && Required(body.description) &&
      body.rating.Some? && 1 <= body.rating.value <= 5
    ensures r.Some? ==> ReviewSchemaOk(r.value)
    ensures r.Some? ==>
      && r.value.userId == userId
      && Some(r.value.name) == body.name
      && r.value.image == body.image
      && Some(r.value.description) == body.description
      && Some(r.value.rating) == body.rating
      && r.value.createdAt == now
  {
    if Required(body.name) && Required(body.description) &&
       body.rating.Some? && 1 <= body.rating.value <= 5
    then Some(Review(userId, body.name.value, body.image, body.description.value,
                     body.rating.value, now))
    else None
  }

  /** Whatever `userId` the body carries, the stored owner comes from the
      verified claims. */
  lemma BodyUserIdIgnored(userId: UserId, body: ReviewBody, forged: UserId, now: int)
    ensures BuildReview(userId, body.(userId := Some(forged)), now) == BuildReview(userId, body, now)
    ensures BuildReview(userId, body, now).Some? ==> BuildReview(userId, body, now).value.userId == userId
  {
  }

  // ----- the listing -----

  /** How many reviews `GET /api/reviews` returns at most. */
  const ListingLimit := 10

  /** Ordered by `createdAt`, newest first. */
  ghost predicate NewestFirst(s: seq<Review>)
  {
    forall i, j :: 0 <= i < j < |s| ==> s[i].createdAt >= s[j].createdAt
  }

  /** Places `r` into the newest-first sequence `s`. */
  function Insert(r: Review, s: seq<Review>): (t: seq<Review>)
    requires NewestFirst(s)
    ensures NewestFirst(t)
    ensures multiset(t) == multiset(s) + multiset{r}
    ensures |t| == |s| + 1
    ensures t[0] == r || (s != [] && t[0] == s[0])
  {
    if s == [] || r.createdAt >= s[0].createdAt then [r] + s
    else
      var tail := Insert(r, s[1..]);
      assert s == [s[0]] + s[1..];
      assert tail[0].createdAt <= s[0].createdAt;
      [s[0]] + tail
  }

  /** `sort({ createdAt: -1 })`. MongoDB leaves the order of equal timestamps
      unspecified; this is one admissible order. */
  function SortNewestFirst(s: seq<Review>): (t: seq<Review>)
    ensures NewestFirst(t)
    ensures multiset(t) == multiset(s)
    ensures |t| == |s|
  {
    if s == [] then []
    else
      assert s == [s[0]] + s[1..];
      Insert(s[0], SortNewestFirst(s[1..]))
  }

  /** `Review.find().sort({ createdAt: -1 }).limit(10)`. */
  function Listing(reviews: seq<Review>): seq<Review>
  {
    var sorted := SortNewestFirst(reviews);
    if |sorted| <= ListingLimit then sorted else sorted[..ListingLimit]
  }

  /** In a newest-first sequence, whatever lies past position `k` is no newer
      than anything before it. */
  lemma SuffixNoNewer(t: seq<Review>, k: nat, x: Review)
    requires NewestFirst(t) && k <= |t| && x in multiset(t[k..])
    ensures forall i :: 0 <= i < k ==> x.createdAt <= t[i].createdAt
  {
  }

  /** The listing holds at most ten stored reviews, newest first, and no review
      left out is newer than any review listed. */
  lemma {:induction false} ListingIsNewestTen(reviews: seq<Review>)
    ensures var l := Listing(reviews);
      && |l| == (if |reviews| <= ListingLimit then |reviews| else ListingLimit)
      && NewestFirst(l)
      && multiset(l) <= multiset(reviews)
      && forall x, i :: 0 <= i < |l| && multiset(l)[x] < multiset(reviews)[x] ==>
           x.createdAt <= l[i].createdAt
  {
    var sorted := SortNewestFirst(reviews);
    var l := Listing(reviews);
    var k := |l|;
    assert l == sorted[..k];
    assert sorted == l + sorted[k..];
    assert multiset(reviews) == multiset(l) + multiset(sorted[k..]);
    forall x, i | 0 <= i < |l| && multiset(l)[x] < multiset(reviews)[x]
      ensures x.createdAt <= l[i].createdAt
    {
      assert x in multiset(sorted[k..]);
      SuffixNoNewer(sorted, k, x);
    }
  }
}
