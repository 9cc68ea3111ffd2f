/** The pieces shared by both conversion forms: the error taxonomy, the
    coordinate ranges, and the "first failing check wins" rule that orders
    every validation chain. */
module Validation {
  import opened Wrappers

  /** One tag per message the forms can show. */
  datatype ErrorTag =
    | InvalidNumber
    | LatitudeOutOfRange
    | LongitudeOutOfRange
    | LatitudeDegreesOutOfRange
    | LongitudeDegreesOutOfRange
    | MinutesOutOfRange
    | SecondsOutOfRange
    | NoConversionYet

  /** Latitudes are accepted in [-90, 90], both ends included. */
  predicate InLatitudeRange(x: real) {
    -90.0 <= x <= 90.0
  }

  /** Longitudes are accepted in [-180, 180], both ends included. */
  predicate InLongitudeRange(x: real) {
    -180.0 <= x <= 180.0
  }

  /** Minutes and seconds are accepted in [0, 60): 60 itself is refused. */
  predicate InSexagesimalRange(x: real) {
    0.0 <= x < 60.0
  }

  /** The first check of `checks` that does not pass, if any. This is the
      reference meaning of an ordered validation chain. */
  function FirstFailure<C>(checks: seq<C>, passes: C -> bool): (r: Option<C>)
    ensures r.None? <==> forall c :: c in checks ==> passes(c)
    ensures r.Some? ==> r.value in checks && !passes(r.value)
  {
    if |checks| == 0 then None
    else if !passes(checks[0]) then Some(checks[0])
    else FirstFailure(checks[1..], passes)
  }

  /** The check `FirstFailure` reports fails, and every check before it passes. */
  lemma {:induction false} FirstFailureIsFirst<C>(checks: seq<C>, passes: C -> bool)
    requires FirstFailure(checks, passes).Some?
    ensures exists i :: 0 <= i < |checks| && checks[i] == FirstFailure(checks, passes).value
                        && forall j :: 0 <= j < i ==> passes(checks[j])
  {
    if passes(checks[0]) {
      FirstFailureIsFirst(checks[1..], passes);
      var i :| 0 <= i < |checks[1..]| && checks[1..][i] == FirstFailure(checks, passes).value
               && forall j :: 0 <= j < i ==> passes(checks[1..][j]);
      assert checks[i + 1] == FirstFailure(checks, passes).value;
      forall j | 0 <= j < i + 1
        ensures passes(checks[j])
      {
        if j > 0 {
          assert checks[j] == checks[1..][j - 1];
        }
      }
    } else {
      assert checks[0] == FirstFailure(checks, passes).value;
    }
  }

  /** Conversely, a failing check preceded only by passing ones is the one
      `FirstFailure` reports. */
  lemma {:induction false} FirstFailureAt<C>(checks: seq<C>, passes: C -> bool, i: nat)
    requires i < |checks| && !passes(checks[i])
    requires forall j :: 0 <= j < i ==> passes(checks[j])
    ensures FirstFailure(checks, passes) == Some(checks[i])
  {
    if i > 0 {
      assert passes(checks[0]);
      forall j | 0 <= j < i - 1
        ensures passes(checks[1..][j])
      {
        assert checks[1..][j] == checks[j + 1];
      }
      FirstFailureAt(checks[1..], passes, i - 1);
    }
  }
}
