/**
 * frontend/app.js: the browser side. One page's state is a class: what
 * `localStorage` holds, where the page was sent (`window.location.href`), the
 * message on show and the contents of the reviews list. Every `fetch` outcome
 * is a parameter of the handler that awaits it.
 */
module Client {
  import opened Wrappers
  import opened Text
  import opened Crypto
  import opened Middleware
  import opened Store
  import opened Api

  /** `JSON.stringify({ id: data.userId, name: data.name })` under the `user` key. */
  datatype StoredUser = StoredUser(id: UserId, name: string)

  /** The two keys the application keeps in `localStorage`. */
  datatype Storage = Storage(token: Option<string>, user: Option<StoredUser>)

  const SignedOut := Storage(None, None)

  /** An assignment to `window.location.href`, immediately or from a
      `setTimeout` of `afterMs` milliseconds. */
  datatype Navigation = Navigation(target: string, afterMs: nat)

  /** `showMessage(text, 'success' | 'error')`. */
  datatype Kind = Success | Failure
  datatype Notice = Notice(text: string, kind: Kind)

  /** What an awaited `fetch(...)` gives: a response, or an exception (a
      network failure). */
  datatype Reply = Thrown | Replied(response: Response)

  /** `await response.json()` after the fetch: the plain text that
      `res.sendStatus` writes is not JSON and throws like a failed fetch. */
  function ParseJson(reply: Reply): Reply
  {
    if reply.Replied? && reply.response.body.StatusText? then Thrown else reply
  }

  /** `response.ok`. */
  predicate Ok(r: Response)
  {
    200 <= r.status <= 299
  }

  /** The values of the review form's four inputs; `rating` as Mongoose will
      cast it (`None` when empty or not a number). */
  datatype ReviewForm = ReviewForm(name: string, image: string, description: string, rating: Option<int>)

  /** The request `handleReviewSubmit` sends. */
  datatype Outgoing = Outgoing(authorization: string, body: ReviewBody)

  /** One rendered review card: the image shown (if any), name, description
      and star string. */
  datatype Card = Card(image: Option<string>, name: string, description: string, stars: string)

  /** The contents of `#reviewsList`: a lone paragraph, or cards (`Cards([])`
      is the cleared list). */
  datatype ReviewsView = Placeholder(text: string) | Cards(cards: seq<Card>)

  const PlaceholderText := "No reviews yet. Be the first to share your experience!"
  const NetworkErrorText := "Network error. Please try again."

  /** What the `DOMContentLoaded` handler does after its guard. */
  datatype LoadPlan = RedirectToLogin | Ready(verifyToken: bool)

  // ----- the protected-page guard -----

  const ProtectedPages := {"home.html", "service.html", "review.html"}

  /** `[...].includes(window.location.pathname.split('/').pop())`. */
  predicate OnProtectedPage(pathname: string)
  {
    LastField(pathname, '/') in ProtectedPages
  }

  /** The guard at the top of the `DOMContentLoaded` handler. */
  function PageLoadPlan(pathname: string, token: Option<string>): (plan: LoadPlan)
    ensures plan == RedirectToLogin <==> OnProtectedPage(pathname) && !Truthy(token)
    ensures plan.Ready? ==> plan.verifyToken == Truthy(token)
  {
    if OnProtectedPage(pathname) && !Truthy(token) then RedirectToLogin
    else Ready(Truthy(token))
  }

  /** The guard looks only at the page name after the last '/': whatever the
      directory, a protected page without a token redirects, and any other page
      never does. */
  lemma GuardDecidesOnPageName(dir: string, page: string, token: Option<string>)
    requires '/' !in page
    ensures PageLoadPlan(dir + "/" + page, token) == RedirectToLogin <==>
            page in ProtectedPages && !Truthy(token)
  {
    assert dir + "/" + page == dir + ['/'] + page;
    LastFieldAfterSeparator(dir, page, '/');
  }

  // ----- stars -----

  /** `rating` limited to 0..5: how many of the five stars are filled. */
  function FilledStars(rating: int): (k: nat)
    ensures k <= 5
    ensures 0 <= rating <= 5 ==> k == rating
  {
    if rating < 0 then 0 else if rating > 5 then 5 else rating
  }

  function Repeat(c: char, n: nat): (s: string)
    ensures |s| == n && forall i :: 0 <= i < n ==> s[i] == c
  {
    seq(n, _ => c)
  }

  /** Five stars: `min(max(rating, 0), 5)` filled ones, then empty ones. */
  function Stars(rating: int): (s: string)
    ensures |s| == 5
  {
    Repeat('\U{2605}', FilledStars(rating)) + Repeat('\U{2606}', 5 - FilledStars(rating))
  }

  /** The star loop of `loadReviews`: character `i` is filled when `i < rating`. */
  method RenderStars(rating: int) returns (stars: string)
    ensures stars == Stars(rating)
  {
    stars := [];
    for i := 0 to 5
      invariant stars == Repeat('\U{2605}', if FilledStars(rating) < i then FilledStars(rating) else i)
                         + Repeat('\U{2606}', if FilledStars(rating) < i then i - FilledStars(rating) else 0)
    {
      stars := stars + [if i < rating then '\U{2605}' else '\U{2606}'];
    }
  }

  /** A card as `loadReviews` renders it; the image only when truthy. */
  function CardOf(r: Review): Card
  {
    Card(if Truthy(r.image) then r.image else None, r.name, r.description, Stars(r.rating))
  }

  /** The `reviews.forEach` loop of `loadReviews`: one card per review, in
      the order received. */
  method RenderCards(reviews: seq<Review>) returns (cards: seq<Card>)
    ensures |cards| == |reviews|
    ensures forall i :: 0 <= i < |reviews| ==> cards[i] == CardOf(reviews[i])
  {
    cards := [];
    for i := 0 to |reviews|
      invariant |cards| == i
      invariant forall j :: 0 <= j < i ==> cards[j] == CardOf(reviews[j])
    {
      var review := reviews[i];
      var stars := RenderStars(review.rating);
      var image := if Truthy(review.image) then review.image else None;
      cards := cards + [Card(image, review.name, review.description, stars)];
    }
  }

  /** `data.error || fallback`. */
  function ErrorText(data: Body, fallback: string): string
  {
    if data.Error? && data.error != [] then data.error else fallback
  }

  /** The one browser page the handlers run in. */
  class Page {
    /** `window.location.pathname`. */
    const pathname: string
    /** Whether the page has a `#reviewsList` element. */
    const hasReviewsList: bool
    var storage: Storage
    /** The last assignment to `window.location.href`, if any. */
    var navigation: Option<Navigation>
    var notice: Option<Notice>
    var reviewsView: ReviewsView

    constructor (pathname: string, hasReviewsList: bool, storage: Storage)
      ensures this.pathname == pathname && this.hasReviewsList == hasReviewsList
      ensures this.storage == storage
      ensures navigation == None && notice == None && reviewsView == Cards([])
    {
      this.pathname := pathname;
      this.hasReviewsList := hasReviewsList;
      this.storage := storage;
      navigation := None;
      notice := None;
      reviewsView := Cards([]);
    }

    /** The `DOMContentLoaded` handler: on a protected page without a token it
        redirects to the login page and sets up nothing else. */
    method DomContentLoaded() returns (plan: LoadPlan)
      modifies this
      ensures plan == PageLoadPlan(pathname, storage.token)
      ensures navigation == if plan == RedirectToLogin then Some(Navigation("login.html", 0))
                            else old(navigation)
      ensures storage == old(storage) && notice == old(notice) && reviewsView == old(reviewsView)
    {
      plan := PageLoadPlan(pathname, storage.token);
      if plan == RedirectToLogin {
        navigation := Some(Navigation("login.html", 0));
      }
    }

    /** `verifyToken`, once the `/api/verify` fetch has settled: a non-ok
        response signs the user out, and leaves a protected page; an exception
        changes nothing. */
    method VerifyToken(reply: Reply)
      modifies this
      ensures reply.Replied? && !Ok(reply.response) ==>
        && storage == SignedOut
        && navigation == if OnProtectedPage(pathname) then Some(Navigation("login.html", 0))
                         else old(navigation)
      ensures !(reply.Replied? && !Ok(reply.response)) ==>
        storage == old(storage) && navigation == old(navigation)
      ensures notice == old(notice) && reviewsView == old(reviewsView)
    {
      if reply.Replied? && !Ok(reply.response) {
        storage := SignedOut;
        if OnProtectedPage(pathname) {
          navigation := Some(Navigation("login.html", 0));
        }
      }
    }

    /** The shared body of `handleRegister` and `handleLogin` after the fetch. */
    method HandleSessionReply(reply: Reply, successText: string, fallback: string)
      requires ParseJson(reply).Replied? && Ok(reply.response) ==> reply.response.body.Session?
      modifies this
      ensures reviewsView == old(reviewsView)
      ensures match ParseJson(reply)
        case Thrown =>
          && storage == old(storage) && navigation == old(navigation)
          && notice == Some(Notice(NetworkErrorText, Failure))
        case Replied(response) =>
          if Ok(response) then
            && storage == Storage(Some(response.body.token),
                                  Some(StoredUser(response.body.userId, response.body.name)))
            && notice == Some(Notice(successText, Success))
            && navigation == Some(Navigation("home.html", 1500))
          else
            && storage == old(storage) && navigation == old(navigation)
            && notice == Some(Notice(ErrorText(response.body, fallback), Failure))
    {
      match ParseJson(reply)
      case Thrown =>
        notice := Some(Notice(NetworkErrorText, Failure));
      case Replied(response) =>
        if Ok(response) {
          var data := response.body;
          storage := storage.(token := Some(data.token));
          storage := storage.(user := Some(StoredUser(data.userId, data.name)));
          notice := Some(Notice(successText, Success));
          navigation := Some(Navigation("home.html", 1500));
        } else {
          notice := Some(Notice(ErrorText(response.body, fallback), Failure));
        }
    }

    /** `handleRegister`, once `POST /api/register` has settled. */
    method HandleRegister(reply: Reply)
      requires ParseJson(reply).Replied? && Ok(reply.response) ==> reply.response.body.Session?
      modifies this
      ensures reviewsView == old(reviewsView)
      ensures match ParseJson(reply)
        case Thrown =>
          && storage == old(storage) && navigation == old(navigation)
          && notice == Some(Notice(NetworkErrorText, Failure))
        case Replied(response) =>
          if Ok(response) then
            && storage == Storage(Some(response.body.token),
                                  Some(StoredUser(response.body.userId, response.body.name)))
            && notice == Some(Notice("Registration successful! Redirecting...", Success))
            && navigation == Some(Navigation("home.html", 1500))
          else
            && storage == old(storage) && navigation == old(navigation)
            && notice == Some(Notice(ErrorText(response.body, "Registration failed"), Failure))
    {
      HandleSessionReply(reply, "Registration successful! Redirecting...", "Registration failed");
    }

    /** `handleLogin`, once `POST /api/login` has settled. */
    method HandleLogin(reply: Reply)
      requires ParseJson(reply).Replied? && Ok(reply.response) ==> reply.response.body.Session?
      modifies this
      ensures reviewsView == old(reviewsView)
      ensures match ParseJson(reply)
        case Thrown =>
          && storage == old(storage) && navigation == old(navigation)
          && notice == Some(Notice(NetworkErrorText, Failure))
        case Replied(response) =>
          if Ok(response) then
            && storage == Storage(Some(response.body.token),
                                  Some(StoredUser(response.body.userId, response.body.name)))
            && notice == Some(Notice("Login successful! Redirecting...", Success))
            && navigation == Some(Navigation("home.html", 1500))
          else
            && storage == old(storage) && navigation == old(navigation)
            && notice == Some(Notice(ErrorText(response.body, "Login failed"), Failure))
    {
      HandleSessionReply(reply, "Login successful! Redirecting...", "Login failed");
    }

    /** `handleReviewSubmit` up to its `fetch`: without a stored token it
        shows an error and sends nothing; otherwise the form goes out with the
        stored token as a bearer header. */
    method HandleReviewSubmit(form: ReviewForm) returns (sent: Option<Outgoing>)
      modifies this
      ensures storage == old(storage) && navigation == old(navigation)
      ensures reviewsView == old(reviewsView)
      ensures !Truthy(storage.token) ==>
        sent == None && notice == Some(Notice("Please log in to submit a review", Failure))
      ensures Truthy(storage.token) ==>
        && sent == Some(Outgoing("Bearer " + storage.token.value,
                                 ReviewBody(Some(form.name), Some(form.image), Some(form.description),
                                            form.rating, None)))
        && notice == old(notice)
    {
      var token := storage.token;
      if !Truthy(token) {
        notice := Some(Notice("Please log in to submit a review", Failure));
        return None;
      }
      sent := Some(Outgoing("Bearer " + token.value,
                            ReviewBody(Some(form.name), Some(form.image), Some(form.description),
                                       form.rating, None)));
    }

    /** The rest of `handleReviewSubmit`, once its `fetch` has settled; a
        successful answer reloads the list (`reload`). */
    method ReviewSubmitSettled(reply: Reply) returns (reload: bool)
      modifies this
      ensures storage == old(storage) && navigation == old(navigation)
      ensures reviewsView == old(reviewsView)
      ensures reload == (reply.Replied? && Ok(reply.response))
      ensures notice == Some(match reply
                             case Thrown => Notice(NetworkErrorText, Failure)
                             case Replied(response) =>
                               if Ok(response) then Notice("Review submitted successfully!", Success)
                               else Notice("Failed to submit review", Failure))
    {
      reload := false;
      match reply
      case Thrown =>
        notice := Some(Notice(NetworkErrorText, Failure));
      case Replied(response) =>
        if Ok(response) {
          notice := Some(Notice("Review submitted successfully!", Success));
          reload := true;
        } else {
          notice := Some(Notice("Failed to submit review", Failure));
        }
    }

    /** `loadReviews`, once `GET /api/reviews` has settled. The response's
        status is not checked: a JSON body that is not a list clears the list
        and then fails in `forEach`. */
    method LoadReviews(reply: Reply)
      modifies this
      ensures storage == old(storage) && navigation == old(navigation) && notice == old(notice)
      ensures ParseJson(reply).Thrown? || !hasReviewsList ==> reviewsView == old(reviewsView)
      ensures ParseJson(reply).Replied? && hasReviewsList ==>
        var data := reply.response.body;
        if !data.ReviewList? then reviewsView == Cards([])
        else if data.reviews == [] then reviewsView == Placeholder(PlaceholderText)
        else
          && reviewsView.Cards?
          && |reviewsView.cards| == |data.reviews|
          && forall i :: 0 <= i < |data.reviews| ==> reviewsView.cards[i] == CardOf(data.reviews[i])
    {
      if ParseJson(reply).Thrown? || !hasReviewsList {
        return;
      }
      reviewsView := Cards([]);
      var data := reply.response.body;
      if !data.ReviewList? {
        return;
      }
      var reviews := data.reviews;
      if |reviews| == 0 {
        reviewsView := Placeholder(PlaceholderText);
        return;
      }
      var cards := RenderCards(reviews);
      reviewsView := Cards(cards);
    }

    /** `handleLogout`: both keys go and the page leaves for `index.html`. */
    method HandleLogout()
      modifies this
      ensures storage == SignedOut
      ensures navigation == Some(Navigation("index.html", 0))
      ensures notice == old(notice) && reviewsView == old(reviewsView)
    {
      storage := SignedOut;
      navigation := Some(Navigation("index.html", 0));
    }
  }
}
