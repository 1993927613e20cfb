# Yelpcamp request gates in Dafny

Yelpcamp is an Express application for campground listings with reviews
and user accounts. Before a route handler reaches the database, a chain of
middleware decides whether the request goes on. This project models that
chain:

- the form validators `validateCampground` and `validateReview`, which
  throw a 400 `ExpressError` with the message of the first check that
  fails, or call `next()`;
- the ownership checks `isAuthor` and `isReviewAuthor`, which compare the
  `author` of the fetched row with `req.user.id`;
- `isLoggedIn` and `storeReturnTo`, which remember the URL a signed-out
  visitor asked for, so that the login handler can send them back to it.

Modules:

- `Js` (js.dfy): the JavaScript value semantics the gates rely on. `Number`
  is what `Number(...)` returns: `NaN`, a finite value kept as an exact
  `real`, or an infinity. `Field` is a form field: `undefined`, a string, or
  a nested array or object. There are truthiness predicates for both, and
  `n < 0` is modelled on the special values too.
- `Gate` (gate.dfy): `Outcome` is the effect of one middleware. `Continue`
  means `next()` is called once. `Fail` is a thrown `ExpressError`.
  `Redirect` is a flash message plus `res.redirect`. `Crash` is an escaping
  `TypeError`. `Decide` runs an ordered list of checks; the first one that
  fails decides the outcome.
- `Middleware` (middleware.dfy): the six exports of `middleware.js`. The
  validators and ownership checks are functions. `isLoggedIn` and
  `storeReturnTo` are methods on an `Exchange` class, because they write
  `req.session.returnTo` and `res.locals.returnTo`. The session is its own
  `Session` object, shared by the requests of one visitor.
- `CampgroundRoutes` (campground_routes.dfy) and `ReviewRoutes`
  (review_routes.dfy): the copies of the validators that the route files
  define for themselves. They are written as ordered check lists, and a
  lemma proves that each copy decides every payload exactly as the one in
  `middleware.js` does.
- `UserRoutes` (users.dfy): the one-line redirect at the end of
  `POST /login`, and a client method showing the whole return-to round trip.

Points where the code behaves differently from what it seems to intend;
the model follows the code:

- A price or rating of 0 is refused with "Invalid Campground Data"
  (middleware.js:30), because `!priceNumber` is true for 0 as well as for
  `NaN`, while the message for negative values (middleware.js:33) reads
  "greater than or equal to 0".
- The route handlers handle a missing campground row (routes/campgrounds.js:117-120
  flashes "Cannot find that campground!"), but `isAuthor` and
  `isReviewAuthor` read `.author` of the fetched row without checking it
  (middleware.js:62 and :85), so a missing row throws a `TypeError` (`Crash`).
- The review validator reuses the campground messages ("Invalid Campground
  Data", "Price must be greater than or equal to 0"). The model keeps them.

## Model

| member | source | states |
|---|---|---|
| Js.PassesNumberChecksIffPositive | middleware.js:30-33 | passing `!n` and then `n < 0` is the same as `n > 0`; only a truthy number can be negative |
| Gate.Decide | routes/campgrounds.js:18-32 | the request continues iff every check passes; otherwise it is a 400 carrying the message of a failing check that has only passing checks before it |
| Gate.DecideSkipsPassing | routes/campgrounds.js:18-29 | checks that pass do not affect the decision: it is made by the checks after them |
| Gate.FailingCheckDecides | routes/campgrounds.js:18-29 | a failing check whose predecessors all pass decides the outcome: a 400 with its message |
| Middleware.ValidateCampground | middleware.js:23-45 | continues iff a payload is present, its price is > 0 and title, location, image and description are non-empty; every failure is a 400; missing payload or price 0/NaN gives "Invalid Campground Data"; a negative price gives the price message; with a price > 0, each field message is thrown iff its field is the first empty one in the order title, location, image, description |
| Middleware.ValidateReview | middleware.js:93-108 | continues iff a payload is present, its rating is > 0 and its body is non-empty; every failure is a 400; missing payload or rating 0/NaN gives "Invalid Campground Data"; a negative rating gives the price message; with a rating > 0, an empty body gives "Review text must be required" |
| Middleware.IsAuthor | middleware.js:62-67 | continues iff the campground row's author equals the user id; on a mismatch redirects to `/campgrounds/{campId}` with the permission flash; a missing row or user crashes |
| Middleware.IsReviewAuthor | middleware.js:85-90 | continues iff the review row's author equals the user id; on a mismatch redirects to the campground page `/campgrounds/{campId}`, not to a review URL, with the permission flash; a missing row or user crashes |
| Middleware.Exchange.IsLoggedIn | middleware.js:7-14 | signed out: `session.returnTo` becomes the original URL, and the result is a redirect to `/login` with "You must be signed in!" and no `next()`; signed in: continues and leaves the session unchanged |
| Middleware.Exchange.StoreReturnTo | middleware.js:16-21 | always continues; copies `session.returnTo` into `locals.returnTo` when it is a non-empty string, and otherwise leaves `locals.returnTo` unchanged |
| CampgroundRoutes.ValidateCampground | routes/campgrounds.js:11-33 | `next()` runs iff the payload is acceptable; every failure is a 400; a missing payload fails before any field is read; price 0/NaN gives "Invalid Campground Data"; a negative price gives the price message |
| CampgroundRoutes.PriceChecksPassIffPositive | routes/campgrounds.js:18-21 | both price checks pass exactly when the price is > 0 |
| CampgroundRoutes.FieldChecksPassIffFilled | routes/campgrounds.js:22-29 | all field checks pass exactly when the four text fields are non-empty |
| CampgroundRoutes.FirstEmptyFieldDecides | routes/campgrounds.js:22-29 | with a price > 0, the decision is that of the field checks alone, in the order title, location, image, description |
| CampgroundRoutes.ZeroPriceRejected | routes/campgrounds.js:16-19 | a price that converts to 0 is refused with "Invalid Campground Data", whatever the other fields hold |
| CampgroundRoutes.SameDecisionAsMiddleware | routes/campgrounds.js:11-33 | this copy and the one in middleware.js give the same outcome for every payload |
| ReviewRoutes.ValidateReview | routes/reviews.js:10-25 | `next()` runs iff the rating is > 0 and the body is non-empty; every failure is a 400; a missing payload or a rating of 0/NaN gives "Invalid Campground Data"; a negative rating gives the price message; with a rating > 0, an empty body gives "Review text must be required" |
| ReviewRoutes.SameDecisionAsMiddleware | routes/reviews.js:10-25 | this copy and the one in middleware.js give the same outcome for every payload |
| UserRoutes.LoginRedirect | routes/users.js:77-81 | redirects to `locals.returnTo` when it is a non-empty string, otherwise to `/campgrounds`, with the "Welcome back!" flash |
| UserRoutes.ReturnAfterLogin | routes/users.js:70-81 | for any session, whatever it already holds, a visitor turned away by `isLoggedIn` from a URL is sent back to exactly that URL by the login route (`storeReturnTo` followed by the login handler) |

## Left out

- Database access: the `db.get` calls in `isAuthor` and `isReviewAuthor` (middleware.js:48-60, 71-83) are left out. The fetched row is an input (`Option<Row>`). A rejected query, which makes the async middleware reject, is not modelled.
- `Number(...)` on strings: the forms carry the converted value, because the conversion is JavaScript's own (whitespace, hexadecimal, exponent and `Infinity` syntax).
- IEEE doubles: numbers are exact reals, so rounding (for example a tiny literal that rounds to 0) is not modelled.
- Middleware.IsAuthor: ids are integers, so a strict `!==` between values of different JavaScript types (a string id against a number) is not modelled.
- Middleware.IsReviewAuthor: same limit on id types as `isAuthor`.
- Flash storage, the session store and Passport: flashes are values inside `Outcome`. `req.isAuthenticated()` is taken to mean that `req.user` is present. What Passport does to the session during login is not modelled.
- What Express does with a thrown error or a redirect (the error page, the HTTP response) is not modelled.
- `isAuthor` and `isReviewAuthor` are exported but no router in routes/campgrounds.js, routes/reviews.js or routes/users.js mounts them: those files import only `isLoggedIn` (routes/campgrounds.js:5) and `storeReturnTo` (routes/users.js:8). Route handlers, controllers, registration, logout, app.js, the map script and the table-creation scripts are SQL, rendering and library glue. They are not part of this model.
- A truthy `req.body.campground` that is a plain string destructures to undefined fields. The model represents it as a form whose fields are all `Undefined` and whose price is `NaN`; it takes the same path.
