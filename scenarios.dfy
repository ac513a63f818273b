/**
 * Browser and server together: the contracts of the two sides compose into
 * the flows the application exists for.
 */
module Scenarios {
  import opened Wrappers
  import opened Crypto
  import opened Middleware
  import opened Store
  import opened Api
  import opened Client

  /** Sign up on the register page, then submit a review from the review
      page: the token the register page stores is the one the review page
      sends, the middleware accepts it, and the stored review belongs to the
      new account. A second registration with the same email is refused
      without touching the table, and the password then logs in. */
  method SignUpThenReview(server: Server, registerPage: Page, reviewPage: Page,
                          name: string, email: string, password: string, salt: nat,
                          description: string, rating: int, now: int)
    requires server.Valid() && Sound(server.crypto)
    requires email !in server.users && name != [] && email != []
    requires description != [] && 1 <= rating <= 5
    requires registerPage != reviewPage
    modifies server, registerPage, reviewPage
    ensures server.Valid()
    ensures email in server.users && server.users[email].id == old(server.nextId)
    ensures server.users[email].password == server.crypto.hash(password, salt)
    ensures server.reviews ==
      old(server.reviews) + [Review(old(server.nextId), name, Some([]), description, rating, now)]
    ensures registerPage.storage.user == Some(StoredUser(old(server.nextId), name))
  {
    var id := server.nextId;
    var registered := server.Register(RegisterBody(name, email, password), salt, now);
    var claims := Claims(id, email);
    var token := server.crypto.sign(claims, server.secret);
    assert registered == Response(201, Session(token, id, name));
    registerPage.HandleRegister(Replied(registered));
    assert registerPage.storage.token == Some(token);

    var again := server.Register(RegisterBody(name, email, password), salt, now);
    assert again == UserExists;

    var login := server.Login(email, password);
    assert login == Response(200, Session(token, id, name));

    // the review page reads the same localStorage
    reviewPage.storage := registerPage.storage;
    var sent := reviewPage.HandleReviewSubmit(ReviewForm(name, [], description, Some(rating)));
    assert sent == Some(Outgoing("Bearer " + token,
                                 ReviewBody(Some(name), Some([]), Some(description), Some(rating), None)));
    var req := new Request(Some(sent.value.authorization));
    SignedTokenAccepted(server.crypto, claims, server.secret);
    var posted := server.PostReview(req, sent.value.body, now);
    assert posted == ReviewSubmitted;
    var reload := reviewPage.ReviewSubmitSettled(Replied(posted));
    assert reload;
  }

  /** Logging out and a rejected token both leave the browser signed out, and
      the next load of a protected page goes back to the login page. */
  method SignedOutPagesRedirect(page: Page, verifyReply: Reply, dir: string, name: string)
    returns (plan: LoadPlan)
    requires verifyReply.Replied? && !Ok(verifyReply.response)
    requires name in ProtectedPages
    modifies page
    ensures plan == RedirectToLogin
    ensures page.storage == SignedOut && page.navigation == Some(Navigation("index.html", 0))
  {
    page.VerifyToken(verifyReply);
    var next := new Page(dir + "/" + name, false, page.storage);
    plan := next.DomContentLoaded();
    GuardDecidesOnPageName(dir, name, next.storage.token);
    assert plan == RedirectToLogin;
    page.HandleLogout();
  }
}
