/** The copy of `validateReview` that `routes/reviews.js` defines for itself,
    written as the ordered list of checks it runs, and the proof that it
    decides every payload as the copy in `middleware.js` does. */
module ReviewRoutes {
  import opened Js
  import opened Gate
  import opened Middleware

  /** The checks run once the payload is present, in order: `!ratingNumber`,
      `ratingNumber < 0`, then `!body`. The messages are the ones the source
      throws, including the two it shares with the campground validator. */
  function ReviewChecks(r: ReviewForm): seq<Check> {
    [ Check(NumberTruthy(r.rating), InvalidCampgroundData),
      Check(!LessThanZero(r.rating), PriceNotNegative),
      Check(FieldTruthy(r.body), ReviewTextRequired) ]
  }

  /** `validateReview` of the review routes: a missing payload is refused
      first; then the first failing check throws a 400, and the request
      continues exactly when the rating is greater than zero and the body is
      non-empty. */
  function ValidateReview(review: Option<ReviewForm>): (o: Outcome)
    ensures o == Continue <==> AcceptableReview(review)
    ensures o != Continue ==> o.Fail? && o.status == BadRequest
    ensures review.None? ==> o == Fail(BadRequest, InvalidCampgroundData)
    ensures review.Some? && !NumberTruthy(review.value.rating) ==>
      o == Fail(BadRequest, InvalidCampgroundData)
    ensures review.Some? && LessThanZero(review.value.rating) ==>
      o == Fail(BadRequest, PriceNotNegative)
    ensures review.Some? && GreaterThanZero(review.value.rating) && !FieldTruthy(review.value.body) ==>
      o == Fail(BadRequest, ReviewTextRequired)
  {
    match review
    case None => Fail(BadRequest, InvalidCampgroundData)
    case Some(r) =>
      var checks := ReviewChecks(r);
      PassesNumberChecksIffPositive(r.rating);
      assert AllPass(checks) <==> checks[0].passes && checks[1].passes && checks[2].passes;
      assert GreaterThanZero(r.rating) ==> FirstFailing(checks) >= 2;
      Decide(checks)
  }

  /** The two copies of the validator throw the same error, or both
      continue, for every payload. */
  lemma SameDecisionAsMiddleware(review: Option<ReviewForm>)
    ensures ValidateReview(review) == Middleware.ValidateReview(review)
  {
  }
}
