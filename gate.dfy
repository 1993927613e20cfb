/** What a piece of Express middleware does with a request, and the
    first-failure-wins evaluation of an ordered list of checks that every
    validator in the application follows. */
module Gate {

  /** The message `req.flash(kind, message)` stores for the next page. */
  datatype Flash = Flash(kind: string, message: string)

  /** The effect of one middleware on the request:
      - Continue: `next()` is called, exactly once;
      - Fail: an `ExpressError(message, status)` is thrown and `next` is not called;
      - Redirect: a flash message is set and `res.redirect(url)` ends the request;
      - Crash: a `TypeError` escapes (a property read on `undefined`). */
  datatype Outcome =
    | Continue
    | Fail(status: int, message: string)
    | Redirect(url: string, flash: Flash)
    | Crash

  /** Status of every validation failure. */
  const BadRequest := 400

  /** One step of a validator: whether the request passes it, and the
      message of the error thrown when it does not. */
  datatype Check = Check(passes: bool, message: string)

  /** All checks of the list pass. */
  predicate AllPass(checks: seq<Check>) {
    forall i :: 0 <= i < |checks| ==> checks[i].passes
  }

  /** A concatenation of checks passes exactly when both parts do. */
  lemma AllPassConcat(a: seq<Check>, b: seq<Check>)
    ensures AllPass(a + b) <==> AllPass(a) && AllPass(b)
  {
    if AllPass(a) && AllPass(b) {
      forall i | 0 <= i < |a + b| ensures (a + b)[i].passes {
        if i >= |a| { assert (a + b)[i] == b[i - |a|]; }
      }
    }
    if AllPass(a + b) {
      forall i | 0 <= i < |a| ensures a[i].passes {
        assert (a + b)[i] == a[i];
      }
      forall i | 0 <= i < |b| ensures b[i].passes {
        assert (a + b)[i + |a|] == b[i];
      }
    }
  }

  /** Index of the first check that does not pass, or `|checks|` when all pass. */
  function FirstFailing(checks: seq<Check>): (k: nat)
    ensures k <= |checks|
    ensures forall i :: 0 <= i < k ==> checks[i].passes
    ensures k < |checks| ==> !checks[k].passes
  {
    if checks == [] then 0
    else if !checks[0].passes then 0
    else 1 + FirstFailing(checks[1..])
  }

  /** Runs the checks in order: the first one that fails throws a 400 with
      its message; when none fails the request continues. */
  function Decide(checks: seq<Check>): (o: Outcome)
    ensures o == Continue <==> AllPass(checks)
    ensures o != Continue ==> o.Fail? && o.status == BadRequest
    ensures o != Continue ==>
      exists k :: 0 <= k < |checks| && !checks[k].passes && o.message == checks[k].message
                  && forall i :: 0 <= i < k ==> checks[i].passes
  {
    var k := FirstFailing(checks);
    if k == |checks| then Continue else Fail(BadRequest, checks[k].message)
  }

  /** Checks that all pass can be skipped: the decision is that of the checks
      after them. */
  lemma {:induction false} DecideSkipsPassing(passed: seq<Check>, rest: seq<Check>)
    requires AllPass(passed)
    ensures FirstFailing(passed + rest) == |passed| + FirstFailing(rest)
    ensures Decide(passed + rest) == Decide(rest)
  {
    if passed != [] {
      assert (passed + rest)[1..] == passed[1..] + rest;
      DecideSkipsPassing(passed[1..], rest);
    } else {
      assert passed + rest == rest;
    }
  }

  /** A failing check decides the outcome when every check before it passes. */
  lemma {:induction false} FailingCheckDecides(passed: seq<Check>, failing: Check, rest: seq<Check>)
    requires AllPass(passed) && !failing.passes
    ensures Decide(passed + [failing] + rest) == Fail(BadRequest, failing.message)
  {
    assert passed + [failing] + rest == passed + ([failing] + rest);
    DecideSkipsPassing(passed, [failing] + rest);
  }
}
