/**
 * Degrees-minutes-seconds decomposition of a decimal angle. The sign of the
 * angle is carried only by the direction letter; the numeric parts are those
 * of its absolute value.
 */
module Dms {

  /** Rust's `i32`. */
  type I32 = x: int | -0x8000_0000 <= x < 0x8000_0000

  const I32Max: int := 0x7FFF_FFFF
  const I32Min: int := -0x8000_0000

  /** 2^31: the first magnitude at which `as i32` saturates. */
  const Limit: real := 2147483648.0

  /** An angle split into degrees, minutes, seconds and a direction letter. */
  datatype Dms = Dms(degrees: I32, minutes: I32, seconds: real, direction: char)

  /** A converted point in both decimal and DMS form. */
  datatype LatLonCoordinate = LatLonCoordinate(
    latDecimal: real,
    lonDecimal: real,
    latDms: Dms,
    lonDms: Dms)

  /** `f64::abs`. */
  function Abs(v: real): (a: real)
    ensures a >= 0.0 && (a == v || a == -v)
  {
    if v >= 0.0 then v else -v
  }

  /**
   * Rust's `as i32` from a finite float: truncate toward zero, then saturate
   * at the bounds of `i32`.
   */
  function TruncToI32(r: real): (n: I32)
    ensures 0.0 <= r < Limit ==> n as real <= r < n as real + 1.0
    ensures r >= Limit ==> n == I32Max
    ensures -Limit < r <= 0.0 ==> n as real - 1.0 < r <= n as real
    ensures r <= -Limit ==> n == I32Min
  {
    if r >= 0.0 then
      (if r.Floor > I32Max then I32Max else r.Floor)
    else
      var t := -((-r).Floor);
      if t < I32Min then I32Min else t
  }

  /**
   * Splits `value` into DMS parts. The direction letter is 'N'/'S' for a
   * latitude and 'E'/'W' for a longitude, the second of each pair exactly
   * when `value` is negative.
   */
  function DecimalToDms(value: real, isLatitude: bool): (d: Dms)
    ensures d.degrees >= 0 && d.minutes >= 0 && d.seconds >= 0.0
    ensures isLatitude ==> (d.direction == 'N' <==> value >= 0.0) && (d.direction == 'S' <==> value < 0.0)
    ensures !isLatitude ==> (d.direction == 'E' <==> value >= 0.0) && (d.direction == 'W' <==> value < 0.0)
  {
    var absValue := Abs(value);
    var degrees := TruncToI32(absValue);
    var minutesFloat := (absValue - degrees as real) * 60.0;
    var minutes := TruncToI32(minutesFloat);
    var seconds := (minutesFloat - minutes as real) * 60.0;
    var direction :=
      if isLatitude then (if value >= 0.0 then 'N' else 'S')
      else (if value >= 0.0 then 'E' else 'W');
    Dms(degrees, minutes, seconds, direction)
  }

  /** The unsigned angle the numeric parts of `d` denote. */
  function Magnitude(d: Dms): real {
    d.degrees as real + d.minutes as real / 60.0 + d.seconds / 3600.0
  }

  /** The letter pair an axis uses: positive letter first. */
  predicate IsPositiveLetter(c: char, isLatitude: bool) {
    if isLatitude then c == 'N' else c == 'E'
  }

  predicate IsNegativeLetter(c: char, isLatitude: bool) {
    if isLatitude then c == 'S' else c == 'W'
  }

  /** The signed decimal angle a DMS value stands for: the inverse of `DecimalToDms`. */
  function ToDecimal(d: Dms, isLatitude: bool): (v: real)
    requires IsPositiveLetter(d.direction, isLatitude) || IsNegativeLetter(d.direction, isLatitude)
    ensures Abs(v) == Abs(Magnitude(d))
  {
    if IsNegativeLetter(d.direction, isLatitude) then -Magnitude(d) else Magnitude(d)
  }

  /**
   * The DMS values `DecimalToDms` can produce for angles below 2^31 degrees:
   * parts in range, a letter of the axis, and no negative zero.
   */
  predicate WellFormed(d: Dms, isLatitude: bool) {
    && d.degrees >= 0
    && 0 <= d.minutes <= 59
    && 0.0 <= d.seconds < 60.0
    && (IsPositiveLetter(d.direction, isLatitude) || IsNegativeLetter(d.direction, isLatitude))
    && (IsNegativeLetter(d.direction, isLatitude) ==> Magnitude(d) > 0.0)
  }

  /**
   * Below the saturation point of `as i32`, degrees and minutes are the
   * truncations of the absolute value and of the remaining minutes, and the
   * parts stay in their ranges.
   */
  lemma DmsBounds(value: real, isLatitude: bool)
    requires Abs(value) < Limit
    ensures var d := DecimalToDms(value, isLatitude);
      && d.degrees as real <= Abs(value) < d.degrees as real + 1.0
      && d.minutes as real <= (Abs(value) - d.degrees as real) * 60.0 < d.minutes as real + 1.0
      && 0 <= d.minutes <= 59
      && 0.0 <= d.seconds < 60.0
  {
    var d := DecimalToDms(value, isLatitude);
    var mf := (Abs(value) - d.degrees as real) * 60.0;
    assert 0.0 <= mf < 60.0;
    assert d.minutes as real <= mf < d.minutes as real + 1.0;
  }

  /** Degrees, minutes and seconds add back up to the absolute value. */
  lemma DmsReconstruction(value: real, isLatitude: bool)
    requires Abs(value) < Limit
    ensures Magnitude(DecimalToDms(value, isLatitude)) == Abs(value)
  {
    DmsBounds(value, isLatitude);
  }

  /** Every conversion below the saturation point is well formed. */
  lemma DecimalToDmsWellFormed(value: real, isLatitude: bool)
    requires Abs(value) < Limit
    ensures WellFormed(DecimalToDms(value, isLatitude), isLatitude)
  {
    DmsBounds(value, isLatitude);
    DmsReconstruction(value, isLatitude);
  }

  /** Converting to DMS and back gives the original angle. */
  lemma DecimalRoundTrip(value: real, isLatitude: bool)
    requires Abs(value) < Limit
    ensures ToDecimal(DecimalToDms(value, isLatitude), isLatitude) == value
  {
    DmsReconstruction(value, isLatitude);
  }

  /**
   * A well-formed DMS value is exactly what `DecimalToDms` gives for the
   * angle it stands for: the decomposition is unique.
   */
  lemma DmsRoundTrip(d: Dms, isLatitude: bool)
    requires WellFormed(d, isLatitude)
    ensures DecimalToDms(ToDecimal(d, isLatitude), isLatitude) == d
  {
    var m := Magnitude(d);
    var v := ToDecimal(d, isLatitude);
    assert Abs(v) == m;
    assert d.minutes as real / 60.0 + d.seconds / 3600.0 < 1.0;
    assert d.degrees as real <= m < d.degrees as real + 1.0;
    var r := DecimalToDms(v, isLatitude);
    assert r.degrees == d.degrees;
    var mf := (m - d.degrees as real) * 60.0;
    assert mf == d.minutes as real + d.seconds / 60.0;
    assert d.minutes as real <= mf < d.minutes as real + 1.0;
    assert r.minutes == d.minutes;
  }

  /** Negating the angle changes nothing but the direction letter. */
  lemma NegationKeepsParts(value: real, isLatitude: bool)
    ensures var p, n := DecimalToDms(value, isLatitude), DecimalToDms(-value, isLatitude);
      && p.degrees == n.degrees && p.minutes == n.minutes && p.seconds == n.seconds
      && (value != 0.0 ==> p.direction != n.direction)
  {
    assert Abs(value) == Abs(-value);
  }

  /** From 2^31 degrees on, the degree count saturates at the largest `i32`. */
  lemma DegreesSaturate(value: real, isLatitude: bool)
    requires Abs(value) >= Limit
    ensures DecimalToDms(value, isLatitude).degrees == I32Max
  {
  }

  /** 37.7749 degrees of latitude is 37°46'29.64" north. */
  lemma NorthernLatitudeExample()
    ensures DecimalToDms(37.7749, true) == Dms(37, 46, 29.64, 'N')
  {
    DmsRoundTrip(Dms(37, 46, 29.64, 'N'), true);
  }

  /** -122.4194 degrees of longitude is 122°25'9.84" west. */
  lemma WesternLongitudeExample()
    ensures DecimalToDms(-122.4194, false) == Dms(122, 25, 9.84, 'W')
  {
    DmsRoundTrip(Dms(122, 25, 9.84, 'W'), false);
  }
}
