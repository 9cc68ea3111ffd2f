/** The conversion engine: decimal degrees to and from the sexagesimal
    degrees / minutes / seconds decomposition, over exact reals. */
module Conversion {

  /** The triple `ddToDms` returns. `degrees` is the signed floor of the input,
      so for a negative angle it is one below the truncated value. */
  datatype Dms = Dms(degrees: int, minutes: int, seconds: real)

  /** Minutes and seconds within one unit of the next-larger part. */
  predicate Normalized(d: Dms) {
    0 <= d.minutes < 60 && 0.0 <= d.seconds < 60.0
  }

  /** `dmsToDd`: minutes and seconds are always added to the (signed) degrees,
      whatever the sign of the degrees. */
  function DmsToDd(degrees: real, minutes: real, seconds: real): (r: real)
    ensures minutes == 0.0 && seconds == 0.0 ==> r == degrees
    ensures degrees == 0.0 && seconds == 0.0 ==> r * 60.0 == minutes
    ensures 0.0 <= minutes && 0.0 <= seconds ==> degrees <= r
    ensures 0.0 <= minutes < 60.0 && 0.0 <= seconds < 60.0 ==> r < degrees + 61.0 / 60.0
  {
    degrees + minutes / 60.0 + seconds / 3600.0
  }

  /** The angle a triple denotes. */
  function Value(d: Dms): real {
    DmsToDd(d.degrees as real, d.minutes as real, d.seconds)
  }

  /** `ddToDms`: floor degrees, floor minutes of the remainder, then the
      remaining fraction of a minute as seconds. */
  function DdToDms(x: real): (r: Dms)
    ensures Normalized(r)
    ensures r.degrees as real <= x < r.degrees as real + 1.0
    ensures x == r.degrees as real ==> r.minutes == 0 && r.seconds == 0.0
  {
    var degrees := x.Floor;
    var minutesNotTruncated := (x - degrees as real) * 60.0;
    var minutes := minutesNotTruncated.Floor;
    var seconds := (minutesNotTruncated - minutes as real) * 60.0;
    Dms(degrees, minutes, seconds)
  }

  /** Decomposing and recombining gives back the input exactly. */
  lemma RoundTrip(x: real)
    ensures Value(DdToDms(x)) == x
  {
  }

  /** A normalized triple is the one `DdToDms` produces for the angle it
      denotes: recombining and decomposing gives back the triple. */
  lemma DecomposeValue(d: Dms)
    requires Normalized(d)
    ensures DdToDms(Value(d)) == d
  {
    var x := Value(d);
    var r := DdToDms(x);
    assert d.degrees == r.degrees;
  }

  /** The normalized triple denoting `x` is unique. */
  lemma NormalizedDecompositionUnique(x: real, d: Dms)
    requires Normalized(d) && Value(d) == x
    ensures d == DdToDms(x)
  {
    DecomposeValue(d);
  }

  /** Worked examples: 65.7225 is 65 degrees 43 minutes 21 seconds, and a
      negative degree count with 30 minutes moves towards zero. */
  lemma Examples()
    ensures DdToDms(65.7225) == Dms(65, 43, 21.0)
    ensures DmsToDd(-12.0, 30.0, 0.0) == -11.5
    ensures DdToDms(-12.5) == Dms(-13, 30, 0.0)
  {
  }
}
