/** The decimal-degrees to degrees-minutes-seconds form: its ordered
    validation chain, the display adapter applied to the engine's triple, and
    the add-to-map gate that checks finiteness only. */
module DdToDmsForm {
  import opened Wrappers
  import opened Validation
  import opened MapPayload
  import Conversion

  datatype Hemisphere = N | S | E | W

  datatype Axis = LatitudeAxis | LongitudeAxis

  /** The letter shown for a non-negative angle on an axis. */
  function Positive(axis: Axis): Hemisphere {
    match axis
    case LatitudeAxis => N
    case LongitudeAxis => E
  }

  /** The letter shown for a negative angle on an axis. */
  function Negative(axis: Axis): Hemisphere {
    match axis
    case LatitudeAxis => S
    case LongitudeAxis => W
  }

  /** A displayed angle: a degree magnitude, the engine's minutes and seconds,
      and a hemisphere letter. */
  datatype FormattedAngle = FormattedAngle(degrees: nat, minutes: int, seconds: real, direction: Hemisphere)

  function Abs(k: int): nat {
    if k < 0 then -k else k
  }

  /** The display adapter of the submit handler: the magnitude of the engine's
      floor degrees, its minutes and seconds unchanged, and the letter chosen by
      the sign of the input, zero counting as north or east. For a negative
      angle the degrees shown are the ceiling of the magnitude, not its floor. */
  function Format(x: real, axis: Axis): (a: FormattedAngle)
    ensures a.direction == Positive(axis) <==> x >= 0.0
    ensures a.direction == Negative(axis) <==> x < 0.0
    ensures 0 <= a.minutes < 60 && 0.0 <= a.seconds < 60.0
    ensures x >= 0.0 ==> a.degrees as real <= x < a.degrees as real + 1.0
    ensures x < 0.0 ==> a.degrees as real - 1.0 < -x <= a.degrees as real
  {
    var dms := Conversion.DdToDms(x);
    FormattedAngle(Abs(dms.degrees), dms.minutes, dms.seconds,
                   if x >= 0.0 then Positive(axis) else Negative(axis))
  }

  /** The conventional reading of a displayed angle: degrees plus minutes and
      seconds, negated for south and west. */
  function Reading(a: FormattedAngle): real {
    var magnitude := Conversion.DmsToDd(a.degrees as real, a.minutes as real, a.seconds);
    if a.direction == S || a.direction == W then -magnitude else magnitude
  }

  /** The adapter keeps the engine's minutes and seconds and shows the
      magnitude of its degrees. */
  lemma FormatKeepsEngineParts(x: real, axis: Axis)
    ensures Format(x, axis).minutes == Conversion.DdToDms(x).minutes
    ensures Format(x, axis).seconds == Conversion.DdToDms(x).seconds
    ensures Format(x, axis).degrees == Abs(Conversion.DdToDms(x).degrees)
  {
  }

  /** Reading a displayed angle gives back the input exactly when the input is
      non-negative or a whole number of degrees. */
  lemma ReadingMatchesExactlyWhen(x: real, axis: Axis)
    ensures Reading(Format(x, axis)) == x <==> x >= 0.0 || x == x.Floor as real
  {
    var dms := Conversion.DdToDms(x);
    Conversion.RoundTrip(x);
    if x < 0.0 {
      assert Reading(Format(x, axis)) == 2.0 * dms.degrees as real - x;
    }
  }

  /** For a negative angle with a fractional part the degrees shown are one
      more than the whole degrees of its magnitude. */
  lemma NegativeFractionShowsOneMoreDegree(x: real, axis: Axis)
    requires x < 0.0 && x != x.Floor as real
    ensures Format(x, axis).degrees == (-x).Floor + 1
  {
  }

  /** The two inputs, already parsed; `None` marks a value that is not finite. */
  datatype Fields = Fields(latitude: Option<real>, longitude: Option<real>)

  /** The component state: inputs, the last displayed results, the error shown. */
  datatype State = State(fields: Fields, resultLat: Option<FormattedAngle>, resultLon: Option<FormattedAngle>,
                         error: Option<ErrorTag>)

  /** What add-to-map leaves behind and what it hands to the map, if anything. */
  datatype AddOutcome = AddOutcome(state: State, emitted: Option<Coordinate>)

  /** A freshly mounted form: no result, no error. */
  function Initial(fields: Fields): State {
    State(fields, None, None, None)
  }

  /** The checks of the submit handler, in the order it makes them. */
  datatype Check = Finiteness | Latitude | Longitude

  const Checks: seq<Check> := [Finiteness, Latitude, Longitude]

  predicate AllFinite(f: Fields) {
    f.latitude.Some? && f.longitude.Some?
  }

  /** What each check demands, stated independently of the others; an absent
      value is left to the finiteness check. */
  predicate Passes(c: Check, f: Fields) {
    match c
    case Finiteness => AllFinite(f)
    case Latitude => f.latitude.Some? ==> InLatitudeRange(f.latitude.value)
    case Longitude => f.longitude.Some? ==> InLongitudeRange(f.longitude.value)
  }

  function Tag(c: Check): ErrorTag {
    match c
    case Finiteness => InvalidNumber
    case Latitude => LatitudeOutOfRange
    case Longitude => LongitudeOutOfRange
  }

  /** The first check of the chain that `f` fails. */
  function FirstFailed(f: Fields): Option<Check> {
    FirstFailure(Checks, c => Passes(c, f))
  }

  /** The validation chain of the submit handler, check by check as written. */
  function Validate(f: Fields): (r: Result<Coordinate, ErrorTag>)
    ensures FirstFailed(f).Some? ==> r == Err(Tag(FirstFailed(f).value))
    ensures FirstFailed(f).None? <==> r.Ok?
    ensures r.Ok? ==> r.value == Coordinate(f.latitude.value, f.longitude.value)
  {
    if f.latitude.None? || f.longitude.None? then Err(InvalidNumber)
    else
      var lat := f.latitude.value;
      var lon := f.longitude.value;
      if lat < -90.0 || lat > 90.0 then Err(LatitudeOutOfRange)
      else if lon < -180.0 || lon > 180.0 then Err(LongitudeOutOfRange)
      else Ok(Coordinate(lat, lon))
  }

  /** The submit handler. On a failed check only the error changes; otherwise
      the error is cleared and both formatted angles are stored. */
  function Submit(s: State): (s': State)
    ensures FirstFailed(s.fields).Some? ==> s' == s.(error := Some(Tag(FirstFailed(s.fields).value)))
    ensures FirstFailed(s.fields).None? ==>
      && s'.fields == s.fields
      && s'.error.None?
      && s'.resultLat == Some(Format(s.fields.latitude.value, LatitudeAxis))
      && s'.resultLon == Some(Format(s.fields.longitude.value, LongitudeAxis))
  {
    match Validate(s.fields)
    case Err(e) => s.(error := Some(e))
    case Ok(c) =>
      s.(error := None, resultLat := Some(Format(c.lat, LatitudeAxis)), resultLon := Some(Format(c.lon, LongitudeAxis)))
  }

  /** The add-to-map handler: it checks finiteness only, needs no earlier
      conversion, and hands on the raw inputs. */
  function AddToMap(s: State): (o: AddOutcome)
    ensures o.state.fields == s.fields && o.state.resultLat == s.resultLat && o.state.resultLon == s.resultLon
    ensures !AllFinite(s.fields) ==> o.state.error == Some(InvalidNumber) && o.emitted.None?
    ensures AllFinite(s.fields) ==>
      o.state.error.None? && o.emitted == Some(Coordinate(s.fields.latitude.value, s.fields.longitude.value))
  {
    if s.fields.latitude.None? || s.fields.longitude.None? then
      AddOutcome(s.(error := Some(InvalidNumber)), None)
    else
      AddOutcome(s.(error := None), Some(Coordinate(s.fields.latitude.value, s.fields.longitude.value)))
  }

  /** The error a submit shows is the tag of the first check, in chain order,
      that the inputs fail; the stored results are left as they were. */
  lemma SubmitReportsFirstFailingCheck(s: State, i: nat)
    requires i < |Checks| && !Passes(Checks[i], s.fields)
    requires forall j :: 0 <= j < i ==> Passes(Checks[j], s.fields)
    ensures Submit(s) == s.(error := Some(Tag(Checks[i])))
  {
    FirstFailureAt(Checks, c => Passes(c, s.fields), i);
  }

  /** A non-finite input is reported as such, whatever the other input is. */
  lemma NonFiniteReportedFirst(s: State)
    requires !AllFinite(s.fields)
    ensures Submit(s) == s.(error := Some(InvalidNumber))
  {
    SubmitReportsFirstFailingCheck(s, 0);
  }

  /** Submitting twice in a row is the same as submitting once. */
  lemma SubmitIdempotent(s: State)
    ensures Submit(Submit(s)) == Submit(s)
  {
  }

  /** Add-to-map emits exactly when the inputs are finite, whether or not they
      were ever converted and whether or not the submit handler would accept
      them. */
  lemma AddToMapIndependentOfSubmit(s: State)
    ensures AddToMap(s).emitted.Some? <==> AllFinite(s.fields)
    ensures AddToMap(s).emitted == AddToMap(Submit(s)).emitted
  {
  }

  /** Latitude 100 is refused by submit yet handed to the map by add-to-map,
      even before any conversion. */
  lemma AddToMapSkipsRangeCheck()
    ensures Validate(Fields(Some(100.0), Some(0.0))) == Err(LatitudeOutOfRange)
    ensures AddToMap(Initial(Fields(Some(100.0), Some(0.0)))).emitted == Some(Coordinate(100.0, 0.0))
  {
  }

  /** Worked examples: 12.3456, 65.4321 is accepted with directions N and E,
      and -12.5 is shown as 13 degrees 30 minutes south. */
  lemma Examples()
    ensures Validate(Fields(Some(12.3456), Some(65.4321))).Ok?
    ensures Format(12.3456, LatitudeAxis).direction == N && Format(65.4321, LongitudeAxis).direction == E
    ensures Format(-12.5, LatitudeAxis) == FormattedAngle(13, 30, 0.0, S)
    ensures Format(0.0, LongitudeAxis) == FormattedAngle(0, 0, 0.0, E)
  {
  }
}
