/**
 * Display of DMS angles: degrees unpadded, minutes as two digits, seconds in
 * a six-character field with three decimals, then the direction letter, as in
 * 37°46'29.640"N; a coordinate is its latitude, one space, its longitude.
 * `ParseDms` and `ParseCoordinate` read these layouts back.
 */
module DmsFormat {
  import opened Results
  import opened Text
  import opened Dms

  /**
   * Seconds rounded to thousandths, as the three-decimal rendering shows
   * them: the nearest multiple of 0.001, and of two equally near ones the
   * one with an even count of thousandths.
   */
  function RoundMillis(s: real): (k: nat)
    requires s >= 0.0
    ensures k as real - 0.5 <= s * 1000.0 <= k as real + 0.5
    ensures (s * 1000.0 == k as real - 0.5 || s * 1000.0 == k as real + 0.5) ==> k % 2 == 0
  {
    var x := s * 1000.0;
    var f := x.Floor;
    if x - f as real < 0.5 then f
    else if x - f as real > 0.5 then f + 1
    else if f % 2 == 0 then f
    else f + 1
  }

  /**
   * `k` thousandths as "<units>.<three decimals>": the point is fourth from
   * the end with digits on both sides.
   */
  function FixedMillisText(k: nat): (r: string)
    ensures |r| >= 5 && r[|r| - 4] == '.'
    ensures AllDigits(r[..|r| - 4]) && AllDigits(r[|r| - 3..])
  {
    var u, f := NatText(k / 1000), ZeroPad(NatText(k % 1000), 3);
    NatTextLength(k % 1000, 3);
    var r := u + "." + f;
    assert r[..|r| - 4] == u && r[|r| - 3..] == f;
    r
  }

  /** The units and the three decimals of `FixedMillisText(k)` read back as `k`. */
  lemma FixedMillisReadsBack(k: nat)
    ensures var r := FixedMillisText(k);
      ParseNat(r[..|r| - 4]) * 1000 + ParseNat(r[|r| - 3..]) == k
  {
    var u, f := NatText(k / 1000), ZeroPad(NatText(k % 1000), 3);
    NatTextLength(k % 1000, 3);
    var r := u + "." + f;
    assert r[..|r| - 4] == u && r[|r| - 3..] == f;
    ParseNatText(k / 1000);
    ParsePadded(k % 1000, 3);
  }

  /**
   * `{:06.3}` of a float: at least six characters, a leading '-' exactly
   * when negative, and the decimal point fourth from the end.
   */
  function SecondsText(s: real): (r: string)
    ensures |r| >= 6 && r[|r| - 4] == '.'
    ensures r[0] == '-' <==> s < 0.0
  {
    var fm := FixedMillisText(RoundMillis(if s < 0.0 then -s else s));
    if s < 0.0 then "-" + ZeroPad(fm, 5)
    else
      assert IsDigit(fm[..|fm| - 4][0]);
      ZeroPad(fm, 6)
  }

  /** The display text of one DMS angle. */
  function FormatDms(dms: Dms): (r: string)
    ensures |r| >= 13 && r[|r| - 1] == dms.direction && r[|r| - 2] == '"'
  {
    IntText(dms.degrees) + "°" + PaddedIntText(dms.minutes, 2) + "'"
      + SecondsText(dms.seconds) + "\"" + [dms.direction]
  }

  /**
   * The display text of a coordinate: latitude, one space, longitude. When
   * the latitude text has no space of its own, splitting at the first space
   * gives the two texts back.
   */
  function FormatCoordinate(coord: LatLonCoordinate): (r: string)
    ensures ' ' in r
    ensures ' ' !in FormatDms(coord.latDms) ==> SplitAtSpace(r) == Some((FormatDms(coord.latDms), FormatDms(coord.lonDms)))
  {
    var lat, lon := FormatDms(coord.latDms), FormatDms(coord.lonDms);
    SplitJoin(lat, lon);
    assert (lat + " " + lon)[|lat|] == ' ';
    lat + " " + lon
  }

  /** What a DMS text shows: degrees, minutes, seconds in thousandths, letter. */
  datatype DisplayedDms = DisplayedDms(degrees: nat, minutes: nat, millis: nat, direction: char)

  /**
   * The DMS values whose text has the fixed-width layout: parts non-negative,
   * minutes below 100, seconds shown below 100.
   */
  predicate Displayable(dms: Dms) {
    && dms.degrees >= 0
    && 0 <= dms.minutes <= 99
    && dms.seconds >= 0.0
    && RoundMillis(dms.seconds) < 100000
  }

  /** What the text of a displayable DMS value shows. */
  function Shown(dms: Dms): DisplayedDms
    requires Displayable(dms)
  {
    DisplayedDms(dms.degrees, dms.minutes, RoundMillis(dms.seconds), dms.direction)
  }

  /**
   * Reads a DMS text back: a degree count, then the twelve fixed characters
   * '°', two minute digits, an apostrophe, two digits, '.', three digits, a
   * double quote and the letter.
   */
  function ParseDms(s: string): Option<DisplayedDms> {
    if |s| < 13 then None
    else
      var n := |s|;
      var deg, t := s[..n - 12], s[n - 12..];
      if IsTail(t) && AllDigits(deg)
      then Some(DisplayedDms(ParseNat(deg), TailMinutes(t), TailMillis(t), t[11]))
      else None
  }

  /** The shape of the twelve characters after the degrees. */
  predicate IsTail(t: string) {
    && |t| == 12
    && t[0] == '°' && t[3] == '\'' && t[6] == '.' && t[10] == '"'
    && IsDigit(t[1]) && IsDigit(t[2]) && IsDigit(t[4]) && IsDigit(t[5])
    && IsDigit(t[7]) && IsDigit(t[8]) && IsDigit(t[9])
  }

  /** The minutes a tail shows. */
  function TailMinutes(t: string): nat
    requires IsTail(t)
  {
    10 * DigitValue(t[1]) + DigitValue(t[2])
  }

  /** The seconds a tail shows, in thousandths. */
  function TailMillis(t: string): nat
    requires IsTail(t)
  {
    1000 * (10 * DigitValue(t[4]) + DigitValue(t[5])) + 100 * DigitValue(t[7]) + 10 * DigitValue(t[8]) + DigitValue(t[9])
  }

  /** Reads a coordinate text back into its latitude and longitude parts. */
  function ParseCoordinate(s: string): Option<(DisplayedDms, DisplayedDms)> {
    match SplitAtSpace(s)
    case None => None
    case Some((lat, lon)) =>
      match (ParseDms(lat), ParseDms(lon))
      case (Some(a), Some(b)) => Some((a, b))
      case _ => None
  }

  /**
   * The twelve characters after the degrees, for minutes `m` and `k`
   * thousandths of seconds: '°', two minute digits, an apostrophe, the tens
   * and units of the seconds, '.', three decimals, a double quote, the letter.
   */
  function Tail(m: nat, k: nat, c: char): (t: string)
    requires m < 100 && k < 100000
    ensures |t| == 12
  {
    var q, r := k / 1000, k % 1000;
    ['°', DigitChar(m / 10), DigitChar(m % 10), '\'',
     DigitChar(q / 10), DigitChar(q % 10), '.',
     DigitChar(r / 100), DigitChar(r / 10 % 10), DigitChar(r % 10),
     '"', c]
  }

  /** `k` thousandths below 100 in the six-character field: two digits, '.', three decimals. */
  lemma MillisLayout(k: nat)
    requires k < 100000
    ensures var q, r := k / 1000, k % 1000;
      ZeroPad(FixedMillisText(k), 6)
        == [DigitChar(q / 10), DigitChar(q % 10), '.', DigitChar(r / 100), DigitChar(r / 10 % 10), DigitChar(r % 10)]
  {
    var q, r := k / 1000, k % 1000;
    TwoDigitText(q);
    ThreeDigitText(r);
    var a, b := ZeroPad(NatText(q), 2), ZeroPad(NatText(r), 3);
    ZeroPadAppend(NatText(q), "." + b, 6);
    assert FixedMillisText(k) == NatText(q) + ("." + b);
    assert ZeroPad(FixedMillisText(k), 6) == a + ("." + b);
    PointJoin(a, b);
  }

  lemma PointJoin(a: string, b: string)
    requires |a| == 2 && |b| == 3
    ensures a + ("." + b) == [a[0], a[1], '.', b[0], b[1], b[2]]
  {
  }

  /** The integer fields laid out: degree digits, then the fixed tail. */
  lemma FieldsLayout(d: nat, m: nat, k: nat, c: char)
    requires m < 100 && k < 100000
    ensures IntText(d) + "°" + PaddedIntText(m, 2) + "'" + ZeroPad(FixedMillisText(k), 6) + "\"" + [c]
      == NatText(d) + Tail(m, k, c)
  {
    MillisLayout(k);
    TwoDigitText(m);
    var mm, ss := PaddedIntText(m, 2), ZeroPad(FixedMillisText(k), 6);
    FixedFieldsJoin(NatText(d), mm, ss, c);
  }

  /**
   * The text of a displayable DMS value: the degree digits, unpadded, then
   * the fixed twelve-character tail.
   */
  lemma FormatDmsLayout(dms: Dms)
    requires Displayable(dms)
    ensures FormatDms(dms) == NatText(dms.degrees) + Tail(dms.minutes, RoundMillis(dms.seconds), dms.direction)
  {
    var k := RoundMillis(dms.seconds);
    assert SecondsText(dms.seconds) == ZeroPad(FixedMillisText(k), 6);
    FieldsLayout(dms.degrees, dms.minutes, k, dms.direction);
  }

  /** Gluing the fields: the characters of the fixed tail in order. */
  lemma FixedFieldsJoin(deg: string, mm: string, ss: string, c: char)
    requires |mm| == 2 && |ss| == 6
    ensures deg + "°" + mm + "'" + ss + "\"" + [c]
      == deg + ['°', mm[0], mm[1], '\'', ss[0], ss[1], ss[2], ss[3], ss[4], ss[5], '"', c]
  {
  }

  /** Parsing splits off the last twelve characters and reads each fixed field. */
  lemma ParseFixed(deg: string, t: string)
    requires 1 <= |deg| && AllDigits(deg) && IsTail(t)
    ensures ParseDms(deg + t) == Some(DisplayedDms(ParseNat(deg), TailMinutes(t), TailMillis(t), t[11]))
  {
    var s := deg + t;
    assert s[..|s| - 12] == deg && s[|s| - 12..] == t;
  }

  /** Parsing reads the degrees before a tail and the fields within it. */
  lemma ParseWithTail(deg: string, m: nat, k: nat, c: char)
    requires 1 <= |deg| && AllDigits(deg) && m < 100 && k < 100000
    ensures ParseDms(deg + Tail(m, k, c)) == Some(DisplayedDms(ParseNat(deg), m, k, c))
  {
    TailValues(m, k, c);
    ParseFixed(deg, Tail(m, k, c));
  }

  /** A tail has the fixed shape and reads back as its minutes and thousandths. */
  lemma TailValues(m: nat, k: nat, c: char)
    requires m < 100 && k < 100000
    ensures IsTail(Tail(m, k, c))
    ensures TailMinutes(Tail(m, k, c)) == m && TailMillis(Tail(m, k, c)) == k && Tail(m, k, c)[11] == c
  {
    var t := Tail(m, k, c);
    var q, r := k / 1000, k % 1000;
    TwoDigitsValue(m);
    TwoDigitsValue(q);
    ThreeDigitsValue(r);
    assert t[1] == DigitChar(m / 10) && t[2] == DigitChar(m % 10);
    assert t[4] == DigitChar(q / 10) && t[5] == DigitChar(q % 10);
    assert t[7] == DigitChar(r / 100) && t[8] == DigitChar(r / 10 % 10) && t[9] == DigitChar(r % 10);
  }

  lemma DigitRoundTrip(d: nat)
    requires d < 10
    ensures DigitValue(DigitChar(d)) == d
  {
  }

  lemma TwoDigitsValue(n: nat)
    requires n < 100
    ensures 10 * DigitValue(DigitChar(n / 10)) + DigitValue(DigitChar(n % 10)) == n
  {
    DigitRoundTrip(n / 10);
    DigitRoundTrip(n % 10);
  }

  lemma ThreeDigitsValue(n: nat)
    requires n < 1000
    ensures 100 * DigitValue(DigitChar(n / 100)) + 10 * DigitValue(DigitChar(n / 10 % 10)) + DigitValue(DigitChar(n % 10)) == n
  {
    var h := n / 10;
    assert n == 10 * h + n % 10;
    assert h == 10 * (h / 10) + h % 10;
    assert h / 10 == n / 100;
    DigitRoundTrip(n / 100);
    DigitRoundTrip(h % 10);
    DigitRoundTrip(n % 10);
  }

  /** Parsing the text of a displayable DMS value gives back what it shows. */
  lemma ParseFormatDms(dms: Dms)
    requires Displayable(dms)
    ensures ParseDms(FormatDms(dms)) == Some(Shown(dms))
  {
    FormatDmsLayout(dms);
    ParseWithTail(NatText(dms.degrees), dms.minutes, RoundMillis(dms.seconds), dms.direction);
    ParseNatText(dms.degrees);
  }

  /** The text of a displayable DMS value has no space unless its letter is one. */
  lemma FormatDmsHasNoSpace(dms: Dms)
    requires Displayable(dms) && dms.direction != ' '
    ensures ' ' !in FormatDms(dms)
  {
    FormatDmsLayout(dms);
    var deg, t := NatText(dms.degrees), Tail(dms.minutes, RoundMillis(dms.seconds), dms.direction);
    forall i | 0 <= i < |deg|
      ensures deg[i] != ' '
    {
      assert IsDigit(deg[i]);
    }
    assert ' ' !in t;
    NoSpaceJoin(deg, t);
  }

  lemma NoSpaceJoin(a: string, b: string)
    requires ' ' !in a && ' ' !in b
    ensures ' ' !in a + b
  {
  }

  /** Parsing the text of a coordinate gives back what both halves show. */
  lemma ParseFormatCoordinate(coord: LatLonCoordinate)
    requires Displayable(coord.latDms) && Displayable(coord.lonDms)
    requires coord.latDms.direction != ' '
    ensures ParseCoordinate(FormatCoordinate(coord)) == Some((Shown(coord.latDms), Shown(coord.lonDms)))
  {
    FormatDmsHasNoSpace(coord.latDms);
    SplitJoin(FormatDms(coord.latDms), FormatDms(coord.lonDms));
    ParseFormatDms(coord.latDms);
    ParseFormatDms(coord.lonDms);
  }

  /**
   * Every conversion below 2^31 degrees has the fixed-width layout, and its
   * seconds never show more than 60.000.
   */
  lemma DecimalToDmsDisplayable(value: real, isLatitude: bool)
    requires Abs(value) < Limit
    ensures Displayable(DecimalToDms(value, isLatitude))
    ensures RoundMillis(DecimalToDms(value, isLatitude).seconds) <= 60000
  {
    DmsBounds(value, isLatitude);
  }

  /** 37.7749 degrees of latitude displays as 37°46'29.640"N. */
  lemma NorthernLatitudeText()
    ensures FormatDms(DecimalToDms(37.7749, true)) == "37°46'29.640\"N"
  {
    NorthernLatitudeExample();
    NorthernLatitudePartsText();
  }

  lemma NorthernLatitudePartsText()
    ensures FormatDms(Dms(37, 46, 29.64, 'N')) == "37°46'29.640\"N"
  {
    assert RoundMillis(29.64) == 29640;
    FormatDmsLayout(Dms(37, 46, 29.64, 'N'));
    NorthernLatitudeDigits();
  }

  lemma NorthernLatitudeDigits()
    ensures NatText(37) + Tail(46, 29640, 'N') == "37°46'29.640\"N"
  {
    NatText37();
    NorthernLatitudeTail();
  }

  lemma NatText37()
    ensures NatText(37) == "37"
  {
    assert NatText(3) == "3";
  }

  lemma NorthernLatitudeTail()
    ensures Tail(46, 29640, 'N') == "°46'29.640\"N"
  {
    assert 29640 / 1000 == 29 && 29640 % 1000 == 640;
    assert Tail(46, 29640, 'N') == ['°', DigitChar(4), DigitChar(6), '\'', DigitChar(2), DigitChar(9), '.', DigitChar(6), DigitChar(4), DigitChar(0), '"', 'N'];
    assert DigitChar(4) == '4' && DigitChar(6) == '6' && DigitChar(2) == '2' && DigitChar(9) == '9' && DigitChar(0) == '0';
  }

  /**
   * Seconds just under 60 can display as 60.000: 59.9996 seconds north of
   * the equator shows as 0°00'60.000"N. Rounding happens only at display
   * time and never carries into the minutes.
   */
  lemma SixtySecondsShown()
    ensures DecimalToDms(59.9996 / 3600.0, true).seconds < 60.0
    ensures FormatDms(DecimalToDms(59.9996 / 3600.0, true)) == "0°00'60.000\"N"
  {
    var d := Dms(0, 0, 59.9996, 'N');
    DmsRoundTrip(d, true);
    assert ToDecimal(d, true) == 59.9996 / 3600.0;
    SixtySecondsPartsText();
  }

  lemma SixtySecondsPartsText()
    ensures FormatDms(Dms(0, 0, 59.9996, 'N')) == "0°00'60.000\"N"
  {
    assert RoundMillis(59.9996) == 60000;
    FormatDmsLayout(Dms(0, 0, 59.9996, 'N'));
    SixtySecondsDigits();
  }

  lemma SixtySecondsDigits()
    ensures NatText(0) + Tail(0, 60000, 'N') == "0°00'60.000\"N"
  {
  }

  /**
   * Seconds exactly halfway between two thousandths show the even one:
   * 0.0625 seconds shows as 00.062 and 0.1875 seconds as 00.188.
   */
  lemma TiesShowEvenMillis()
    ensures FormatDms(Dms(0, 0, 0.0625, 'N')) == "0°00'00.062\"N"
    ensures FormatDms(Dms(0, 0, 0.1875, 'N')) == "0°00'00.188\"N"
  {
    assert RoundMillis(0.0625) == 62;
    assert RoundMillis(0.1875) == 188;
    FormatDmsLayout(Dms(0, 0, 0.0625, 'N'));
    FormatDmsLayout(Dms(0, 0, 0.1875, 'N'));
    TieDownDigits();
    TieUpDigits();
  }

  lemma TieDownDigits()
    ensures NatText(0) + Tail(0, 62, 'N') == "0°00'00.062\"N"
  {
  }

  lemma TieUpDigits()
    ensures NatText(0) + Tail(0, 188, 'N') == "0°00'00.188\"N"
  {
  }
}
