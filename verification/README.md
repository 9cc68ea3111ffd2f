# Coordinate conversion core, modelled in Dafny

This project models the coordinate-conversion core of a browser tool that converts
geographic coordinates between decimal degrees (DD) and degrees-minutes-seconds (DMS).
It covers two parts:

- the conversion engine, `dmsToDd` and `ddToDms`;
- the two form components that gate it, each reduced to a pure state transition:
  - the DMS→DD form, with `Submit` and `AddToMap`;
  - the DD→DMS form, with `Submit`, the hemisphere/absolute-value display adapter, and `AddToMap`.

Numbers are Dafny `real`s, so the arithmetic is exact. `Math.floor` becomes `.Floor`.
A form input is an already-parsed `Option<real>`, where `None` stands for a value that
`isFinite` rejects. Errors are tags of `Validation.ErrorTag` instead of message strings.
A handler's call to the map callback becomes the `emitted` field of its outcome.

Files:

- `wrappers.dfy`: `Option` and `Result`.
- `map_payload.dfy`: the `Coordinate` a form hands to the map callback.
- `validation.dfy`: the error tags and the coordinate ranges. It also defines
  `FirstFailure`, the reference meaning of an ordered validation chain: the first
  check that fails decides the error.
- `conversion.dfy`: the engine, its exact round trip in both directions, and the
  uniqueness of the normalized decomposition.
- `dms_to_dd_form.dfy`, `dd_to_dms_form.dfy`: the two forms. Each one models its chain of
  checks as an ordered list `Checks` and gives a `Passes` predicate per check. Each one
  proves that its handler, written as in the source, reports the first failing check and
  changes nothing else.

## Behaviour reproduced as written

- Given numbers, `dmsToDd` always adds the minutes and seconds to the signed degrees. So
  `dmsToDd(-12, 30, 0)` is `-11.5`, not `-12.5` (`Conversion.Examples`).
- The DMS→DD checks bound the degrees only. A DMS latitude of 90° 30' passes every check.
  In the parsed-number model it is stored as 90.5, outside the latitude range
  (`DmsToDdForm.AcceptedLatitudeBeyondNinety`).
- The DD→DMS add-to-map handler does no range check. Latitude 100 reaches the map
  (`DdToDmsForm.AddToMapSkipsRangeCheck`).
- The displayed degrees are `abs(floor(x))`. For a negative angle with a fractional part, this is
  one more than the whole degrees of its magnitude: -12.5 is shown as 13° 30' S. The model
  reproduces this. `DdToDmsForm.ReadingMatchesExactlyWhen` shows that the displayed angle
  reads back as `x` exactly when `x >= 0` or `x` is whole.

## Model

| member | source | states |
|---|---|---|
| Validation.FirstFailure | src/components/ConversionForm/DmsToDdForm.js:33-56 | an ordered chain reports nothing exactly when every check passes; otherwise it reports a check of the chain that fails |
| Validation.FirstFailureIsFirst | src/components/ConversionForm/DmsToDdForm.js:33-56 | every check before the reported one passes |
| Validation.FirstFailureAt | src/components/ConversionForm/DdToDmsForm.js:26-39 | a failing check preceded only by passing checks is the one reported |
| Conversion.DmsToDd | src/utils/conversionUtils.js:9-11 | zero minutes and seconds give the degrees back; 60k minutes give k degrees; non-negative minutes and seconds never lower the result, and in-range ones raise it by less than 61/60 |
| Conversion.DdToDms | src/utils/conversionUtils.js:19-25 | the degrees are the floor of the input, even when it is negative; minutes are a whole number in [0, 60) and seconds lie in [0, 60); a whole input has zero minutes and seconds |
| Conversion.RoundTrip | src/utils/conversionUtils.js:9-24 | recombining the decomposition of x gives exactly x |
| Conversion.DecomposeValue | src/utils/conversionUtils.js:9-24 | decomposing the angle that a normalized triple denotes gives back that triple |
| Conversion.NormalizedDecompositionUnique | src/utils/conversionUtils.js:19-24 | the decomposition is the only normalized triple that denotes x |
| Conversion.Examples | src/utils/conversionUtils.js:10-23 | 65.7225 decomposes to 65° 43' 21"; -12° 30' recombines to -11.5; -12.5 decomposes to -13, 30, 0 |
| DmsToDdForm.Validate | src/components/ConversionForm/DmsToDdForm.js:30-56 | the chain as written fails with the tag of the first failing check of finiteness, latitude degrees, longitude degrees, minutes, seconds; it succeeds exactly when all pass, and then it hands on the six inputs unchanged |
| DmsToDdForm.Submit | src/components/ConversionForm/DmsToDdForm.js:27-63 | on a failed check only the error changes; on success the error clears and both results become dmsToDd of their triples |
| DmsToDdForm.AddToMap | src/components/ConversionForm/DmsToDdForm.js:68-76 | with a result missing it shows the no-conversion error and emits nothing; otherwise it clears the error and emits exactly the two stored results; inputs and results never change |
| DmsToDdForm.SubmitReportsFirstFailingCheck | src/components/ConversionForm/DmsToDdForm.js:33-56 | the error shown is the tag of the earliest failing check, and everything else stays unchanged |
| DmsToDdForm.NonFiniteReportedFirst | src/components/ConversionForm/DmsToDdForm.js:30-36 | any non-finite input gives the invalid-number error, before any range check |
| DmsToDdForm.SubmitErrorHasCause | src/components/ConversionForm/DmsToDdForm.js:33-56 | a shown error names a failing check that only passing checks precede |
| DmsToDdForm.SubmitIdempotent | src/components/ConversionForm/DmsToDdForm.js:27-63 | submitting twice equals submitting once |
| DmsToDdForm.HandlersKeepResultsPaired | src/components/ConversionForm/DmsToDdForm.js:58-76 | both handlers keep the two results either both present or both absent |
| DmsToDdForm.SubmitThenAddToMap | src/components/ConversionForm/DmsToDdForm.js:58-75 | after an accepted submit, add-to-map emits the two converted angles and clears the error |
| DmsToDdForm.AddToMapBeforeConvert | src/components/ConversionForm/DmsToDdForm.js:68-72 | on a fresh form, add-to-map only sets the no-conversion error |
| DmsToDdForm.AcceptedResultBounds | src/components/ConversionForm/DmsToDdForm.js:38-62 | a stored latitude lies in [-90, 90 + 61/60) and a stored longitude in [-180, 180 + 61/60) |
| DmsToDdForm.AcceptedLatitudeBeyondNinety | src/components/ConversionForm/DmsToDdForm.js:38-62 | 90° 30' is accepted and stored as 90.5 |
| DmsToDdForm.LatitudeDegreesBoundary | src/components/ConversionForm/DmsToDdForm.js:38-56 | 91 degrees of latitude is refused with its tag; -90 degrees with 59.999 minutes is accepted |
| DmsToDdForm.MinutesBoundary | src/components/ConversionForm/DmsToDdForm.js:48-51 | exactly 60 minutes is refused with the minutes tag |
| DmsToDdForm.SecondsBoundary | src/components/ConversionForm/DmsToDdForm.js:53-56 | exactly 60 seconds is refused with the seconds tag |
| DdToDmsForm.Format | src/components/ConversionForm/DdToDmsForm.js:42-57 | the letter is N/E exactly when x >= 0 and S/W exactly when x < 0; minutes and seconds are in [0, 60); the degrees are the floor of a non-negative x and the ceiling of the magnitude of a negative x |
| DdToDmsForm.FormatKeepsEngineParts | src/components/ConversionForm/DdToDmsForm.js:45-57 | minutes and seconds pass through from ddToDms; the degrees are the absolute value of its floor degrees |
| DdToDmsForm.ReadingMatchesExactlyWhen | src/components/ConversionForm/DdToDmsForm.js:45-57 | the displayed angle, read with its hemisphere sign, equals x exactly when x >= 0 or x is whole |
| DdToDmsForm.NegativeFractionShowsOneMoreDegree | src/components/ConversionForm/DdToDmsForm.js:46 | for negative non-whole x, the degrees shown are floor(abs(x)) + 1 |
| DdToDmsForm.Validate | src/components/ConversionForm/DdToDmsForm.js:26-39 | the chain as written fails with the tag of the first failing check of finiteness, latitude, longitude (inclusive bounds); it succeeds exactly when all pass, and then it hands on the inputs |
| DdToDmsForm.Submit | src/components/ConversionForm/DdToDmsForm.js:23-61 | on a failed check only the error changes; on success the error clears and both results become the formatted angles |
| DdToDmsForm.AddToMap | src/components/ConversionForm/DdToDmsForm.js:66-74 | it checks finiteness only; on finite inputs it clears the error and emits the raw inputs; inputs and results never change |
| DdToDmsForm.SubmitReportsFirstFailingCheck | src/components/ConversionForm/DdToDmsForm.js:26-39 | the error shown is the tag of the earliest failing check, and everything else stays unchanged |
| DdToDmsForm.NonFiniteReportedFirst | src/components/ConversionForm/DdToDmsForm.js:26-29 | any non-finite input gives the invalid-number error, before any range check |
| DdToDmsForm.SubmitIdempotent | src/components/ConversionForm/DdToDmsForm.js:23-61 | submitting twice equals submitting once |
| DdToDmsForm.AddToMapIndependentOfSubmit | src/components/ConversionForm/DdToDmsForm.js:66-74 | add-to-map emits exactly when both inputs are finite, and a prior submit does not change what it emits |
| DdToDmsForm.AddToMapSkipsRangeCheck | src/components/ConversionForm/DdToDmsForm.js:31-73 | latitude 100 is refused by submit but emitted by add-to-map on a fresh form |
| DdToDmsForm.Examples | src/components/ConversionForm/DdToDmsForm.js:45-57 | 12.3456, 65.4321 is accepted with letters N and E; -12.5 shows as 13° 30' 0" S; 0 shows as 0° 0' 0" E |

## Left out

- Parsing and JavaScript coercion are left out. The form state holds strings, `isFinite` coerces them (the empty string counts as 0), and `dmsToDd` receives the raw strings at `DmsToDdForm.js:59`, where `+` concatenates text. The model assumes each input is already a parsed real, or `None` when it is not finite. NaN and the infinities are both `None`.
- The DMS form's stored results are modelled as `dmsToDd` of the parsed numbers. As written, the form passes the field texts to `dmsToDd` (`DmsToDdForm.js:59-60`), so `+` concatenates: 90° 30' 0" is stored as the text `"900.50"` and -12° 30' 0" as `"-120.50"`. The results the program stores and later emits are therefore not `dmsToDd` of the numbers; the model states what the conversion of the parsed numbers would give.
- IEEE-754 rounding is left out. In floating point, `ddToDms` can yield 60 minutes or 60 seconds with no carry. Over reals the round trip is exact, no tolerance is needed, and no minutes or seconds of 60 can arise; so the bounds proved here are stronger than the floating-point code guarantees.
- `parseFloat` on the emitted values is left out. The program applies it to text: to the concatenated result text at `DmsToDdForm.js:75`, and to the raw field text at `DdToDmsForm.js:73`. The model emits the parsed numbers instead.
- DdToDmsForm.AddToMap: does not model the empty-field case. `isFinite('')` is true but `parseFloat('')` is NaN, so a form with an empty field (a freshly mounted form, for one) passes the gate at `DdToDmsForm.js:67`, clears the error and emits a NaN coordinate at `DdToDmsForm.js:73`. In the model every finite input `Some(r)` emits `r`, and an empty field is treated as an input that was parsed.
- Rendering is left out: the JSX, the `onChange` input handlers and the message texts. The result display's truthiness test always shows a stored result, because DMS results are non-empty text and DD results are objects.
- The map widget (`src/components/Map/MapComponent.js`) is not part of this model: it is foreign-library and DOM glue. The map callback is modelled only as the coordinate a handler emits.
- The application shell (`src/App.js`) is not part of this model: modal and tab visibility.
