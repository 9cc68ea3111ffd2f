/** The degrees-minutes-seconds to decimal-degrees form: its ordered
    validation chain, the conversion it stores, and the add-to-map gate. */
module DmsToDdForm {
  import opened Wrappers
  import opened Validation
  import opened MapPayload
  import Conversion

  /** The six inputs, already parsed; `None` marks a value that is not finite. */
  datatype Fields = Fields(
    degreesLat: Option<real>, minutesLat: Option<real>, secondsLat: Option<real>,
    degreesLon: Option<real>, minutesLon: Option<real>, secondsLon: Option<real>)

  /** One validated degrees / minutes / seconds triple. */
  datatype Angle = Angle(degrees: real, minutes: real, seconds: real)

  /** The component state: inputs, the last stored results, the error shown. */
  datatype State = State(fields: Fields, resultLat: Option<real>, resultLon: Option<real>, error: Option<ErrorTag>)

  /** What add-to-map leaves behind and what it hands to the map, if anything. */
  datatype AddOutcome = AddOutcome(state: State, emitted: Option<Coordinate>)

  /** A freshly mounted form: no result, no error. */
  function Initial(fields: Fields): State {
    State(fields, None, None, None)
  }

  /** The checks of the submit handler, in the order it makes them. */
  datatype Check = Finiteness | LatitudeDegrees | LongitudeDegrees | Minutes | Seconds

  const Checks: seq<Check> := [Finiteness, LatitudeDegrees, LongitudeDegrees, Minutes, Seconds]

  predicate AllFinite(f: Fields) {
    && f.degreesLat.Some? && f.minutesLat.Some? && f.secondsLat.Some?
    && f.degreesLon.Some? && f.minutesLon.Some? && f.secondsLon.Some?
  }

  /** An absent value is not out of range: each range check speaks only of the
      values it can see, and finiteness is a check of its own. */
  predicate Within(o: Option<real>, inRange: real -> bool) {
    o.Some? ==> inRange(o.value)
  }

  /** What each check demands, stated independently of the others. */
  predicate Passes(c: Check, f: Fields) {
    match c
    case Finiteness => AllFinite(f)
    case LatitudeDegrees => Within(f.degreesLat, InLatitudeRange)
    case LongitudeDegrees => Within(f.degreesLon, InLongitudeRange)
    case Minutes => Within(f.minutesLat, InSexagesimalRange) && Within(f.minutesLon, InSexagesimalRange)
    case Seconds => Within(f.secondsLat, InSexagesimalRange) && Within(f.secondsLon, InSexagesimalRange)
  }

  function Tag(c: Check): ErrorTag {
    match c
    case Finiteness => InvalidNumber
    case LatitudeDegrees => LatitudeDegreesOutOfRange
    case LongitudeDegrees => LongitudeDegreesOutOfRange
    case Minutes => MinutesOutOfRange
    case Seconds => SecondsOutOfRange
  }

  /** The first check of the chain that `f` fails. */
  function FirstFailed(f: Fields): Option<Check> {
    FirstFailure(Checks, c => Passes(c, f))
  }

  /** The validation chain of the submit handler, check by check as written. */
  function Validate(f: Fields): (r: Result<(Angle, Angle), ErrorTag>)
    ensures FirstFailed(f).Some? ==> r == Err(Tag(FirstFailed(f).value))
    ensures FirstFailed(f).None? <==> r.Ok?
    ensures r.Ok? ==>
      && r.value.0 == Angle(f.degreesLat.value, f.minutesLat.value, f.secondsLat.value)
      && r.value.1 == Angle(f.degreesLon.value, f.minutesLon.value, f.secondsLon.value)
  {
    var isLatValid := f.degreesLat.Some? && f.minutesLat.Some? && f.secondsLat.Some?;
    var isLonValid := f.degreesLon.Some? && f.minutesLon.Some? && f.secondsLon.Some?;
    if !isLatValid || !isLonValid then Err(InvalidNumber)
    else
      var lat := Angle(f.degreesLat.value, f.minutesLat.value, f.secondsLat.value);
      var lon := Angle(f.degreesLon.value, f.minutesLon.value, f.secondsLon.value);
      if lat.degrees < -90.0 || lat.degrees > 90.0 then Err(LatitudeDegreesOutOfRange)
      else if lon.degrees < -180.0 || lon.degrees > 180.0 then Err(LongitudeDegreesOutOfRange)
      else if lat.minutes < 0.0 || lat.minutes >= 60.0 || lon.minutes < 0.0 || lon.minutes >= 60.0 then
        Err(MinutesOutOfRange)
      else if lat.seconds < 0.0 || lat.seconds >= 60.0 || lon.seconds < 0.0 || lon.seconds >= 60.0 then
        Err(SecondsOutOfRange)
      else Ok((lat, lon))
  }

  function Convert(a: Angle): real {
    Conversion.DmsToDd(a.degrees, a.minutes, a.seconds)
  }

  /** The submit handler. On a failed check only the error changes; otherwise
      the error is cleared and both conversions are stored. */
  function Submit(s: State): (s': State)
    ensures FirstFailed(s.fields).Some? ==> s' == s.(error := Some(Tag(FirstFailed(s.fields).value)))
    ensures FirstFailed(s.fields).None? ==>
      && s'.fields == s.fields
      && s'.error.None?
      && s'.resultLat == Some(Conversion.DmsToDd(s.fields.degreesLat.value, s.fields.minutesLat.value, s.fields.secondsLat.value))
      && s'.resultLon == Some(Conversion.DmsToDd(s.fields.degreesLon.value, s.fields.minutesLon.value, s.fields.secondsLon.value))
  {
    match Validate(s.fields)
    case Err(e) => s.(error := Some(e))
    case Ok((lat, lon)) => s.(error := None, resultLat := Some(Convert(lat)), resultLon := Some(Convert(lon)))
  }

  /** The add-to-map handler: a gate on a stored result, which it hands on. */
  function AddToMap(s: State): (o: AddOutcome)
    ensures o.state.fields == s.fields && o.state.resultLat == s.resultLat && o.state.resultLon == s.resultLon
    ensures s.resultLat.None? || s.resultLon.None? ==> o.state.error == Some(NoConversionYet) && o.emitted.None?
    ensures s.resultLat.Some? && s.resultLon.Some? ==>
      o.state.error.None? && o.emitted == Some(Coordinate(s.resultLat.value, s.resultLon.value))
  {
    if s.resultLat.None? || s.resultLon.None? then
      AddOutcome(s.(error := Some(NoConversionYet)), None)
    else
      AddOutcome(s.(error := None), Some(Coordinate(s.resultLat.value, s.resultLon.value)))
  }

  /** The error a submit shows is the tag of the first check, in chain order,
      that the inputs fail; the stored results are left as they were. */
  lemma SubmitReportsFirstFailingCheck(s: State, i: nat)
    requires i < |Checks| && !Passes(Checks[i], s.fields)
    requires forall j :: 0 <= j < i ==> Passes(Checks[j], s.fields)
    ensures Submit(s) == s.(error := Some(Tag(Checks[i])))
  {
    FirstFailureAt(Checks, c => Passes(c, s.fields), i);
  }

  /** A non-finite input is reported as such, whatever the other inputs are,
      so no range check can pre-empt it. */
  lemma NonFiniteReportedFirst(s: State)
    requires !AllFinite(s.fields)
    ensures Submit(s) == s.(error := Some(InvalidNumber))
  {
    SubmitReportsFirstFailingCheck(s, 0);
  }

  /** A submit that shows an error failed some check, and passed every check
      the chain makes before it. */
  lemma SubmitErrorHasCause(s: State)
    requires Submit(s).error.Some?
    ensures exists i :: 0 <= i < |Checks| && Submit(s).error == Some(Tag(Checks[i]))
                        && !Passes(Checks[i], s.fields)
                        && forall j :: 0 <= j < i ==> Passes(Checks[j], s.fields)
  {
    FirstFailureIsFirst(Checks, c => Passes(c, s.fields));
  }

  /** Submitting twice in a row is the same as submitting once. */
  lemma SubmitIdempotent(s: State)
    ensures Submit(Submit(s)) == Submit(s)
  {
  }

  /** Results are set together and never cleared, so either both are present or
      neither is. */
  predicate ResultsPaired(s: State) {
    s.resultLat.Some? <==> s.resultLon.Some?
  }

  lemma HandlersKeepResultsPaired(s: State)
    requires ResultsPaired(s)
    ensures ResultsPaired(Submit(s)) && ResultsPaired(AddToMap(s).state)
  {
  }

  /** After a submit that passes every check, add-to-map hands the map the two
      converted angles. */
  lemma SubmitThenAddToMap(s: State)
    requires forall c :: c in Checks ==> Passes(c, s.fields)
    ensures AddToMap(Submit(s)).emitted == Some(Coordinate(
      Conversion.DmsToDd(s.fields.degreesLat.value, s.fields.minutesLat.value, s.fields.secondsLat.value),
      Conversion.DmsToDd(s.fields.degreesLon.value, s.fields.minutesLon.value, s.fields.secondsLon.value)))
    ensures AddToMap(Submit(s)).state.error.None?
  {
  }

  /** Add-to-map on a freshly mounted form refuses and emits nothing. */
  lemma AddToMapBeforeConvert(fields: Fields)
    ensures AddToMap(Initial(fields)) == AddOutcome(Initial(fields).(error := Some(NoConversionYet)), None)
  {
  }

  /** A stored result lies between its degrees value and that value plus
      61/60; the minutes and seconds never lower it. */
  lemma AcceptedResultBounds(s: State)
    requires forall c :: c in Checks ==> Passes(c, s.fields)
    ensures -90.0 <= Submit(s).resultLat.value < 90.0 + 61.0 / 60.0
    ensures -180.0 <= Submit(s).resultLon.value < 180.0 + 61.0 / 60.0
  {
  }

  /** The degree check bounds the degrees only: 90 degrees 30 minutes north
      passes every check and, in this parsed-number model, is stored as 90.5,
      outside the latitude range. */
  lemma AcceptedLatitudeBeyondNinety()
    ensures Submit(Initial(Fields(Some(90.0), Some(30.0), Some(0.0), Some(0.0), Some(0.0), Some(0.0)))).resultLat
            == Some(90.5)
  {
  }

  /** 91 degrees of latitude is refused; -90 is accepted, with 59.999 minutes. */
  lemma LatitudeDegreesBoundary()
    ensures Validate(Fields(Some(91.0), Some(0.0), Some(0.0), Some(0.0), Some(0.0), Some(0.0)))
            == Err(LatitudeDegreesOutOfRange)
    ensures Validate(Fields(Some(-90.0), Some(59.999), Some(0.0), Some(0.0), Some(0.0), Some(0.0))).Ok?
  {
  }

  /** Exactly 60 minutes is refused. */
  lemma MinutesBoundary()
    ensures Validate(Fields(Some(0.0), Some(60.0), Some(0.0), Some(0.0), Some(0.0), Some(0.0)))
            == Err(MinutesOutOfRange)
  {
  }

  /** Exactly 60 seconds is refused. */
  lemma SecondsBoundary()
    ensures Validate(Fields(Some(0.0), Some(0.0), Some(0.0), Some(0.0), Some(0.0), Some(60.0)))
            == Err(SecondsOutOfRange)
  {
  }
}
