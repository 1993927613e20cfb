/** The copy of `validateCampground` that `routes/campgrounds.js` defines for
    itself, written as the ordered list of checks it runs, and the proof that
    it decides every payload as the copy in `middleware.js` does. */
module CampgroundRoutes {
  import opened Js
  import opened Gate
  import opened Middleware

  /** The two price checks, in the order they run: `!priceNumber`, then
      `priceNumber < 0`. */
  function PriceChecks(c: CampgroundForm): seq<Check> {
    [ Check(NumberTruthy(c.price), InvalidCampgroundData),
      Check(!LessThanZero(c.price), PriceNotNegative) ]
  }

  /** The required text fields, in the order they are checked. */
  function FieldChecks(c: CampgroundForm): seq<Check> {
    [ Check(FieldTruthy(c.title), TitleRequired),
      Check(FieldTruthy(c.location), LocationRequired),
      Check(FieldTruthy(c.image), ImageRequired),
      Check(FieldTruthy(c.description), DescriptionRequired) ]
  }

  /** `validateCampground` of the campground routes: a missing payload is
      refused before any field is read; then the price checks and the field
      checks run in order and the first failure throws. */
  function ValidateCampground(campground: Option<CampgroundForm>): (o: Outcome)
    ensures o == Continue <==> AcceptableCampground(campground)
    ensures o != Continue ==> o.Fail? && o.status == BadRequest
    ensures campground.None? ==> o == Fail(BadRequest, InvalidCampgroundData)
    ensures campground.Some? && !NumberTruthy(campground.value.price) ==>
      o == Fail(BadRequest, InvalidCampgroundData)
    ensures campground.Some? && LessThanZero(campground.value.price) ==>
      o == Fail(BadRequest, PriceNotNegative)
  {
    match campground
    case None => Fail(BadRequest, InvalidCampgroundData)
    case Some(c) =>
      var checks := PriceChecks(c) + FieldChecks(c);
      assert checks[0] == PriceChecks(c)[0] && checks[1] == PriceChecks(c)[1];
      AllPassConcat(PriceChecks(c), FieldChecks(c));
      PriceChecksPassIffPositive(c);
      FieldChecksPassIffFilled(c);
      Decide(checks)
  }

  /** The price checks both pass exactly for a price greater than zero. */
  lemma PriceChecksPassIffPositive(c: CampgroundForm)
    ensures AllPass(PriceChecks(c)) <==> GreaterThanZero(c.price)
  {
    PassesNumberChecksIffPositive(c.price);
    assert AllPass(PriceChecks(c)) <==> PriceChecks(c)[0].passes && PriceChecks(c)[1].passes;
  }

  /** The field checks all pass exactly when the four fields are non-empty. */
  lemma FieldChecksPassIffFilled(c: CampgroundForm)
    ensures AllPass(FieldChecks(c)) <==>
      FieldTruthy(c.title) && FieldTruthy(c.location) && FieldTruthy(c.image) && FieldTruthy(c.description)
  {
    var f := FieldChecks(c);
    assert AllPass(f) <==> f[0].passes && f[1].passes && f[2].passes && f[3].passes;
  }

  /** Once the price is a number greater than zero, the first empty field
      among title, location, image and description, in that order, decides
      the message. */
  lemma FirstEmptyFieldDecides(c: CampgroundForm)
    requires GreaterThanZero(c.price)
    ensures ValidateCampground(Some(c)) == Decide(FieldChecks(c))
  {
    DecideSkipsPassing(PriceChecks(c), FieldChecks(c));
  }

  /** A payload whose price converts to 0 is refused with the generic message,
      whatever its other fields hold. */
  lemma ZeroPriceRejected(c: CampgroundForm)
    requires c.price == Finite(0.0)
    ensures ValidateCampground(Some(c)) == Fail(BadRequest, InvalidCampgroundData)
    ensures !AcceptableCampground(Some(c))
  {
  }

  /** The two copies of the validator throw the same error, or both
      continue, for every payload. */
  lemma SameDecisionAsMiddleware(campground: Option<CampgroundForm>)
    ensures ValidateCampground(campground) == Middleware.ValidateCampground(campground)
  {
    if campground.Some? && GreaterThanZero(campground.value.price) {
      var c := campground.value;
      FirstEmptyFieldDecides(c);
      var fields := FieldChecks(c);
      if !FieldTruthy(c.title) {
        FailingCheckDecides([], fields[0], fields[1..]);
        assert [] + [fields[0]] + fields[1..] == fields;
      } else if !FieldTruthy(c.location) {
        FailingCheckDecides(fields[..1], fields[1], fields[2..]);
        assert fields[..1] + [fields[1]] + fields[2..] == fields;
      } else if !FieldTruthy(c.image) {
        FailingCheckDecides(fields[..2], fields[2], fields[3..]);
        assert fields[..2] + [fields[2]] + fields[3..] == fields;
      } else if !FieldTruthy(c.description) {
        FailingCheckDecides(fields[..3], fields[3], []);
        assert fields[..3] + [fields[3]] + [] == fields;
      }
    }
  }
}
