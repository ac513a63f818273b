# Review site: authentication and session model

A Dafny model of the authentication and session layer of a small Express +
MongoDB review site. The server side (`backend/server.js`) registers and logs in
users, signs JSON Web Tokens, checks them in a bearer-header middleware, stores
reviews and lists the newest ten. The browser side (`frontend/app.js`) keeps the
token and the user in `localStorage`, guards the protected pages, and renders
reviews with a five-character star string.

Modules, one file each, leaves first:

- `text.dfy`: `Wrappers` (an `Option`), and `Text`: JavaScript's
  `split` with a one-character separator, its inverse `Join`, and
  `split(...).pop()`.
- `auth.dfy`: `Crypto` holds bcrypt and jsonwebtoken as four uninterpreted
  operations in a `Primitives` value, and a predicate `Sound` with the few facts
  assumed of them. `Middleware` is `authenticateToken` as a pure three-outcome
  decision: 401, 403, or continue with the claims.
- `store.dfy`: `Store` holds the user and review records, the schema
  constraints a `save()` enforces, and the newest-ten listing.
- `server.dfy`: `Api` holds the `Server` class. Its fields are the user table
  (a map from email to user), the review table (a sequence) and the next user
  id. Its methods are the route handlers. `Request` is the request object the
  middleware writes `req.user` into.
- `client.dfy`: `Client` holds the `Page` class. Its fields are the
  `localStorage` record (`token`, `user`), the last navigation, the message on
  show and the reviews list. Its methods are the handlers of `app.js`. The
  star and card loops are methods proved against specification functions.
- `scenarios.dfy`: `Scenarios` composes both sides. It covers sign-up, a
  duplicate sign-up, log-in, and a review sent with the stored token and
  accepted by the middleware. It also covers the signed-out redirect.

The server answers 400 for a duplicate email and for bad credentials. It does
not normalise emails or check password length. The listing has no pagination
and no totals. The client does not retry a failed request, keeps no store
besides `localStorage`, and does no HTML escaping. The signing secret is a
constructor argument of `Server`: whatever `JWT_SECRET` or the
`'fallback_secret'` default yields is one value of it.

I/O becomes parameters:

- the bcrypt salt;
- `Date.now()` (`now`);
- the outcome of every browser `fetch` (`Reply`).

MongoDB's ObjectId generation is a counter (`nextId`).

## Model

| member | source | states |
|---|---|---|
| `Text.Split` | backend/server.js:56 | every field of `s.split(sep)` is free of the separator, and there is at least one field |
| `Text.JoinSplit` | backend/server.js:56 | joining the fields of a split with the separator gives back the original string |
| `Text.SplitAtSeparator` | backend/server.js:56 | splitting `a + sep + b` gives the fields of `a` followed by the fields of `b` |
| `Text.SplitWithoutSeparator` | backend/server.js:56 | a string without the separator splits into itself alone |
| `Text.FieldsAfterFirstSeparator` | backend/server.js:56 | a separator-free first word is the first field, and the rest is split on its own |
| `Text.LastField` | frontend/app.js:7 | `split('/').pop()` holds no '/' |
| `Text.LastFieldAfterSeparator` | frontend/app.js:7 | the last field of `dir + '/' + name` is `name` when `name` holds no '/' |
| `Middleware.BearerToken` | backend/server.js:55-58 | the token exists only for a truthy header with at least two space-separated fields; it is the second field, non-empty and space-free |
| `Middleware.Authenticate` | backend/server.js:54-65 | 401 exactly when no token was extracted; 403 exactly when a token was extracted and verification failed; otherwise continue with exactly the verified claims |
| `Middleware.NoSecondFieldIsUnauthorized` | backend/server.js:55-58 | an absent header, or a header without a space, gives 401 |
| `Middleware.TokenFollowsFirstSpace` | backend/server.js:56 | after any space-free scheme word, the token is the text up to the next space, or nothing when that text is empty |
| `Middleware.EmptySecondFieldIsUnauthorized` | backend/server.js:56-58 | `"Bearer "`, or two spaces after the scheme, gives 401 like a missing header |
| `Middleware.SchemeWordNotChecked` | backend/server.js:56 | any scheme word, not only `Bearer`, followed by a space-free token yields that token |
| `Middleware.SignedTokenAccepted` | backend/server.js:60-64 | with sound primitives, a header `Bearer <sign(claims)>` checked before the token expires passes the middleware with exactly `claims` |
| `Store.UserSchemaOk` | backend/server.js:21-26 | a user document passes validation when name, email and password are non-empty |
| `Store.ReviewSchemaOk` | backend/server.js:29-36 | a review document passes validation when name and description are non-empty and the rating is in 1..5 |
| `Store.BuildReview` | backend/server.js:123-132 | the review is saved exactly when name and description are present and non-empty and the rating is present and in 1..5; the saved review satisfies the schema, takes its owner from the claims and copies the other fields from the body |
| `Store.BodyUserIdIgnored` | backend/server.js:124-130 | a `userId` in the body never changes the review built; the owner is the verified user |
| `Store.Insert` | backend/server.js:141 | inserting into a newest-first sequence keeps it newest-first and adds exactly that review |
| `Store.SortNewestFirst` | backend/server.js:141 | `sort({ createdAt: -1 })` gives a newest-first permutation of the reviews |
| `Store.Listing` | backend/server.js:141 | `find().sort({ createdAt: -1 }).limit(10)`: the sorted reviews cut to the first ten; its properties are proved in `ListingIsNewestTen` |
| `Store.ListingIsNewestTen` | backend/server.js:141 | the listing has `min(10, n)` reviews from the table, newest first, and no review left out is newer than any review listed |
| `Api.TablesValid` | backend/server.js:21-36 | the invariants of the two collections: users keyed by their unique email, every user and review satisfying its schema, distinct user ids; `Register` and `PostReview` keep it |
| `Api.Server.constructor` | backend/server.js:20-39 | the model's initial state: empty tables satisfying `TablesValid`; the collections persist in MongoDB, so every handler is proved for any state satisfying `Valid()`, not only this one |
| `Api.Server.AuthenticateToken` | backend/server.js:54-65 | decides as `Authenticate`; sets `req.user` to the claims only when it lets the request through |
| `Api.Server.Register` | backend/server.js:68-94 | a known email gives 400 "User already exists" and leaves both tables unchanged; a fresh email adds exactly one user (the store grows by one) whose password is `hash(password)`, and answers 201 with `{token, userId, name}`, where the token signs `{userId: new id, email}`; a record the schema rejects gives 500 and changes nothing; the schema invariants are kept |
| `Api.Server.Login` | backend/server.js:96-119 | the answer is 400 exactly when the email is unknown or the password does not match, and it is then the same "Invalid credentials" response in both cases; otherwise 200 with a token signing the found user's `{userId, email}` and that user's id and name; the tables are only read |
| `Api.Server.PostReview` | backend/server.js:121-137 | 401 or 403 as the middleware decides, with the handler not run and nothing changed; once through, `req.user` is the claims, and the review built from the claims and body is appended (201) or, when the schema rejects it, nothing is stored (500); users untouched, invariants kept |
| `Api.Server.ListReviews` | backend/server.js:139-146 | 200 with exactly `min(10, n)` of the table's `n` reviews, newest first, none newer left out |
| `Api.Server.VerifyRoute` | backend/server.js:149-151 | 401 or 403 as the middleware decides, with `req.user` untouched; otherwise 200 `{valid: true, user}` with the verified claims, which `req.user` holds |
| `Client.OnProtectedPage` | frontend/app.js:7-10 | the page is protected when the last `/`-segment of its path is `home.html`, `service.html` or `review.html` |
| `Client.PageLoadPlan` | frontend/app.js:6-19 | redirect to login exactly on a protected page with no truthy token; otherwise go on, verifying the token exactly when one is stored |
| `Client.GuardDecidesOnPageName` | frontend/app.js:7-13 | whatever the directory, the redirect happens exactly when the page name is `home.html`, `service.html` or `review.html` and no token is stored |
| `Client.Page.DomContentLoaded` | frontend/app.js:5-19 | follows `PageLoadPlan`; a redirect sets the location to `login.html` and nothing else changes |
| `Client.Page.VerifyToken` | frontend/app.js:42-60 | a non-ok answer removes both `token` and `user` and goes to `login.html` only on a protected page; an ok answer or a thrown error changes nothing |
| `Client.Page.HandleSessionReply` | frontend/app.js:79-92 | ok: stores `token` and `user = {id: userId, name}` and schedules `home.html` after 1500 ms; not ok: storage unchanged, shows `data.error` or the fallback; thrown (a failed fetch, or a plain-text body `response.json()` cannot parse): storage unchanged, network-error message |
| `Client.Page.HandleRegister` | frontend/app.js:63-94 | ok: stores `token` and `user = {id: userId, name}` from the response and schedules `home.html` after 1500 ms; not ok: storage and location unchanged, shows `data.error` or "Registration failed"; thrown (a failed fetch, or a plain-text body `response.json()` cannot parse): storage and location unchanged, network-error message |
| `Client.Page.HandleLogin` | frontend/app.js:97-127 | ok: stores `token` and `user = {id: userId, name}` from the response and schedules `home.html` after 1500 ms; not ok: storage and location unchanged, shows `data.error` or "Login failed"; thrown (a failed fetch, or a plain-text body `response.json()` cannot parse): storage and location unchanged, network-error message |
| `Client.Page.HandleReviewSubmit` | frontend/app.js:130-152 | with no truthy stored token: an error message and no request; otherwise one request carrying `Bearer <stored token>` and the form fields, with no `userId` |
| `Client.Page.ReviewSubmitSettled` | frontend/app.js:154-163 | ok: success message and a reload of the list; otherwise the failure or network-error message; storage untouched |
| `Client.Page.LoadReviews` | frontend/app.js:167-206 | a thrown error (a failed fetch, or a plain-text body `response.json()` cannot parse) or a page without the list changes nothing; an empty list shows only the placeholder; a list gives one card per review in order; a non-list body leaves the list cleared |
| `Client.CardOf` | frontend/app.js:190-198 | the card of one review: its image only when truthy, its name, description and star string |
| `Client.RenderCards` | frontend/app.js:181-201 | one card per review, in order, each with its truthy image, name, description and star string |
| `Client.FilledStars` | frontend/app.js:187 | the number of filled stars is between 0 and 5 and equals the rating when the rating is in 0..5 |
| `Client.Stars` | frontend/app.js:185-188 | exactly five characters: `min(max(rating,0),5)` filled stars, then empty ones |
| `Client.RenderStars` | frontend/app.js:185-188 | the loop that adds '★' when `i < rating` and '☆' otherwise builds exactly `Stars(rating)` |
| `Client.Page.HandleLogout` | frontend/app.js:209-213 | removes both `token` and `user` and navigates to `index.html` |
| `Scenarios.SignUpThenReview` | backend/server.js:68-137 | with sound primitives: a fresh sign-up stores the hashed password and the token; the same email again is refused; the password logs in to the same account; the review page sends the stored token; the middleware accepts it; the review is stored under the new user's id |
| `Scenarios.SignedOutPagesRedirect` | frontend/app.js:6-13 | after a rejected token the storage is empty, so loading any protected page redirects to login; logout leaves the storage empty and goes to `index.html` |

## Left out

- bcrypt and jsonwebtoken are uninterpreted operations. The model assumes only
  the facts in `Crypto.Sound`. It does not model the work factor of 10, the
  token layout beyond "non-empty, no space", or the `iat`/`exp` claims.
- Token expiry after 24 hours needs a wall clock. It is modelled only as one
  of the ways `verify` may fail.
- The signing secret is a constructor argument. Reading `JWT_SECRET` from
  the environment, with `'fallback_secret'` when it is unset, happens outside
  the model; the fallback is one value the argument can take.
- Store and library failures are not modelled: a failed database call, or a
  `hash` or `sign` that throws. The 500 paths that are modelled are the ones
  the schema's validation causes on `save()`.
- Concurrency is not modelled. Handlers run one at a time. Two racing
  registrations of one email, which the unique index would settle, are not
  modelled.
- Api.Server.Register: body fields are strings. An absent (`undefined`) field
  is not distinguished from "". The register and login forms always send
  strings.
- Api.Server.Login: the same holds for its body fields. A missing password,
  on which `bcrypt.compare` would throw and the handler answer 500, is not
  modelled.
- Store.BuildReview: the rating is an integer. A fractional rating that the
  schema would accept is not modelled. A rating Mongoose cannot cast is
  modelled like an absent one.
- Store.SortNewestFirst: MongoDB does not specify the order of reviews with
  equal `createdAt`. The model fixes one order. The properties proved about the
  listing hold for any order.
- Api.Server.PostReview: every verified payload is assumed to be the
  `{userId, email}` the server signs. A token signed elsewhere with the same
  secret (the `'fallback_secret'` default is public) may carry a payload
  without a castable `userId`. Its review then fails the required ObjectId
  check and the handler answers 500. The model answers 201 instead.
- Review ids and the `ref: 'User'` link are not modelled. The schema does not
  check that the referenced user exists.
- Server infrastructure is not modelled: the database connection, the rate
  limiter, CORS, the JSON body parser, static file serving, the `sendFile`
  page routes (`/home`, `/service`, `/review`, `/`, `/register`, `/login`)
  and `app.listen`.
- Client.Page.HandleRegister: the precondition says an ok reply carries
  `{token, userId, name}`, which is what the modelled server sends with its
  2xx answers. What the page would store for any other ok body is not
  modelled.
- Client.Page.HandleLogin: the same precondition holds as for
  `HandleRegister`.
- Client.Page.HandleSessionReply: the same precondition holds as for
  `HandleRegister`.
- Browser mechanics are not modelled: DOM event wiring, `fetch` itself,
  form reset, the timing of `setTimeout` (recorded only as a delay on the
  navigation), and the hiding of messages by `showMessage`. Of
  `response.json()`, only the failure on a plain-text body is modelled.
- `showMessage` writes nothing on a page without a `#message` element. The
  model always sets `notice`, so it describes pages that have one.
- Rendering is reduced to the card's fields and its star string. The card
  markup (`innerHTML`) and date formatting are not modelled.
