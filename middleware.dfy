/** The request gates of `middleware.js`: the two form validators, the two
    ownership checks, and the two middlewares that carry the URL a signed-out
    visitor asked for across the login page. */
module Middleware {
  import opened Js
  import opened Gate

  const InvalidCampgroundData := "Invalid Campground Data"
  const PriceNotNegative := "Price must be greater than or equal to 0"
  const TitleRequired := "Title must be required"
  const LocationRequired := "Location must be required"
  const ImageRequired := "Image must be required"
  const DescriptionRequired := "Description must be required"
  const ReviewTextRequired := "Review text must be required"
  const SignInRequired := "You must be signed in!"
  const NoPermission := "You do not have permission to do that!"
  const LoginPage := "/login"

  /** `req.body.campground` once present. `price` holds what `Number(price)`
      gives for the submitted field. */
  datatype CampgroundForm =
    CampgroundForm(title: Field, location: Field, image: Field, price: Number, description: Field)

  /** `req.body.review` once present. `rating` holds what `Number(rating)`
      gives for the submitted field. */
  datatype ReviewForm = ReviewForm(rating: Number, body: Field)

  /** The `author` column of the row fetched by id. The query joins on
      `users.id = author`, so a returned row always has an author. */
  datatype Row = Row(author: int)

  /** `req.user`, as the session deserialises it. */
  datatype User = User(id: int)

  /** The page of campground `campId`, where both ownership checks send a
      visitor who is not the author. */
  function CampgroundPage(campId: string): string {
    "/campgrounds/" + campId
  }

  /** The campgrounds the validator lets through: a payload is present, its
      price is a number greater than zero, and the four text fields are
      non-empty. */
  predicate AcceptableCampground(campground: Option<CampgroundForm>) {
    && campground.Some?
    && GreaterThanZero(campground.value.price)
    && FieldTruthy(campground.value.title)
    && FieldTruthy(campground.value.location)
    && FieldTruthy(campground.value.image)
    && FieldTruthy(campground.value.description)
  }

  /** The reviews the validator lets through: a payload is present, its
      rating is a number greater than zero, and its body is non-empty. */
  predicate AcceptableReview(review: Option<ReviewForm>) {
    && review.Some?
    && GreaterThanZero(review.value.rating)
    && FieldTruthy(review.value.body)
  }

  /** `validateCampground`: the first failing check throws a 400. A price of
      0 is refused with the generic message although the message for
      negative prices reads "greater than or equal to 0". */
  function ValidateCampground(campground: Option<CampgroundForm>): (o: Outcome)
    ensures o == Continue <==> AcceptableCampground(campground)
    ensures o != Continue ==> o.Fail? && o.status == BadRequest
    ensures o == Fail(BadRequest, InvalidCampgroundData) <==>
      campground.None? || !NumberTruthy(campground.value.price)
    ensures o == Fail(BadRequest, PriceNotNegative) <==>
      campground.Some? && LessThanZero(campground.value.price)
    ensures o == Fail(BadRequest, TitleRequired) <==>
      && campground.Some? && GreaterThanZero(campground.value.price)
      && !FieldTruthy(campground.value.title)
    ensures o == Fail(BadRequest, LocationRequired) <==>
      && campground.Some? && GreaterThanZero(campground.value.price)
      && FieldTruthy(campground.value.title)
      && !FieldTruthy(campground.value.location)
    ensures o == Fail(BadRequest, ImageRequired) <==>
      && campground.Some? && GreaterThanZero(campground.value.price)
      && FieldTruthy(campground.value.title) && FieldTruthy(campground.value.location)
      && !FieldTruthy(campground.value.image)
    ensures o == Fail(BadRequest, DescriptionRequired) <==>
      && campground.Some? && GreaterThanZero(campground.value.price)
      && FieldTruthy(campground.value.title) && FieldTruthy(campground.value.location)
      && FieldTruthy(campground.value.image)
      && !FieldTruthy(campground.value.description)
  {
    match campground
    case None => Fail(BadRequest, InvalidCampgroundData)
    case Some(c) =>
      if !NumberTruthy(c.price) then Fail(BadRequest, InvalidCampgroundData)
      else if LessThanZero(c.price) then Fail(BadRequest, PriceNotNegative)
      else if !FieldTruthy(c.title) then Fail(BadRequest, TitleRequired)
      else if !FieldTruthy(c.location) then Fail(BadRequest, LocationRequired)
      else if !FieldTruthy(c.image) then Fail(BadRequest, ImageRequired)
      else if !FieldTruthy(c.description) then Fail(BadRequest, DescriptionRequired)
      else Continue
  }

  /** `validateReview`: the rating checks run before the body check, and a
      negative rating reuses the campground price message. */
  function ValidateReview(review: Option<ReviewForm>): (o: Outcome)
    ensures o == Continue <==> AcceptableReview(review)
    ensures o != Continue ==> o.Fail? && o.status == BadRequest
    ensures o == Fail(BadRequest, InvalidCampgroundData) <==>
      review.None? || !NumberTruthy(review.value.rating)
    ensures o == Fail(BadRequest, PriceNotNegative) <==>
      review.Some? && LessThanZero(review.value.rating)
    ensures o == Fail(BadRequest, ReviewTextRequired) <==>
      review.Some? && GreaterThanZero(review.value.rating) && !FieldTruthy(review.value.body)
  {
    match review
    case None => Fail(BadRequest, InvalidCampgroundData)
    case Some(r) =>
      if !NumberTruthy(r.rating) then Fail(BadRequest, InvalidCampgroundData)
      else if LessThanZero(r.rating) then Fail(BadRequest, PriceNotNegative)
      else if !FieldTruthy(r.body) then Fail(BadRequest, ReviewTextRequired)
      else Continue
  }

  /** The comparison both ownership checks share: reading `.author` of a
      missing row or `.id` of a missing user throws; a strict mismatch
      flashes an error and sends the visitor to the campground page. */
  function RequireAuthor(campId: string, row: Option<Row>, user: Option<User>): Outcome {
    match row
    case None => Crash
    case Some(r) =>
      match user
      case None => Crash
      case Some(u) =>
        if r.author != u.id then Redirect(CampgroundPage(campId), Flash("error", NoPermission))
        else Continue
  }

  /** `isAuthor`, after the campground row has been fetched: only its author
      gets through. */
  function IsAuthor(campId: string, campground: Option<Row>, user: Option<User>): (o: Outcome)
    ensures o == Continue <==>
      campground.Some? && user.Some? && campground.value.author == user.value.id
    ensures o == Crash <==> campground.None? || user.None?
    ensures o.Redirect? <==>
      campground.Some? && user.Some? && campground.value.author != user.value.id
    ensures o.Redirect? ==> o == Redirect(CampgroundPage(campId), Flash("error", NoPermission))
  {
    RequireAuthor(campId, campground, user)
  }

  /** `isReviewAuthor`, after the review row has been fetched: only the
      review's author gets through, and everyone else is sent to the page of
      the campground named in the URL, not to the review. */
  function IsReviewAuthor(campId: string, review: Option<Row>, user: Option<User>): (o: Outcome)
    ensures o == Continue <==>
      review.Some? && user.Some? && review.value.author == user.value.id
    ensures o == Crash <==> review.None? || user.None?
    ensures o.Redirect? <==>
      review.Some? && user.Some? && review.value.author != user.value.id
    ensures o.Redirect? ==> o == Redirect(CampgroundPage(campId), Flash("error", NoPermission))
  {
    RequireAuthor(campId, review, user)
  }

  /** `req.session`, which outlives a single request. */
  class Session {
    var returnTo: Option<string>

    constructor ()
      ensures returnTo == None
    {
      returnTo := None;
    }
  }

  /** One request/response pair: `req.user`, `req.originalUrl`,
      `req.session` and `res.locals.returnTo`. */
  class Exchange {
    const user: Option<User>
    const originalUrl: string
    const session: Session
    var localsReturnTo: Option<string>

    constructor (user: Option<User>, originalUrl: string, session: Session)
      ensures this.user == user && this.originalUrl == originalUrl && this.session == session
      ensures localsReturnTo == None
    {
      this.user := user;
      this.originalUrl := originalUrl;
      this.session := session;
      localsReturnTo := None;
    }

    /** `isLoggedIn`: a signed-out visitor has the URL they asked for
        remembered in the session and is sent to the login page; a signed-in
        one continues with the session untouched. */
    method IsLoggedIn() returns (o: Outcome)
      modifies session
      ensures o == Continue <==> user.Some?
      ensures user.None? ==> o == Redirect(LoginPage, Flash("error", SignInRequired))
      ensures user.None? ==> session.returnTo == Some(originalUrl)
      ensures user.Some? ==> session.returnTo == old(session.returnTo)
    {
      if user.None? {
        session.returnTo := Some(originalUrl);
        return Redirect(LoginPage, Flash("error", SignInRequired));
      }
      o := Continue;
    }

    /** `storeReturnTo`: copies a non-empty `session.returnTo` into
        `res.locals`, leaves `res.locals` alone otherwise, and always
        continues. The session itself is not changed. */
    method StoreReturnTo() returns (o: Outcome)
      modifies this`localsReturnTo
      ensures o == Continue
      ensures StringTruthy(session.returnTo) ==> localsReturnTo == session.returnTo
      ensures !StringTruthy(session.returnTo) ==> localsReturnTo == old(localsReturnTo)
    {
      if StringTruthy(session.returnTo) {
        localsReturnTo := session.returnTo;
      }
      o := Continue;
    }
  }
}
