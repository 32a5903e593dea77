/**
 * The conversion facade: theatre lookup, projection build, forward transform
 * and the two DMS decompositions, with two named entry points for the two
 * kinds of mission point.
 */
module Facade {
  import opened Results
  import opened Registry
  import opened Dms
  import opened DmsFormat
  import opened Projection

  /**
   * The inputs on which conversion does not panic: the theatre is unknown,
   * the engine refuses the projection, or the engine can transform (y, x).
   */
  predicate InDomain<H>(x: real, y: real, theatre: string, engine: Engine<H>) {
    match ProjectionFromTheatre(theatre)
    case Err(_) => true
    case Ok(tm) =>
      match ProjFromMap(tm, engine)
      case Err(_) => true
      case Ok(proj) => engine.convert(proj, (y, x)).Some?
  }

  /**
   * Converts a simulator point of a theatre to latitude and longitude, in
   * decimal and in DMS. Stated against the registry table and the engine:
   * an unknown theatre fails without the engine being consulted; a refused
   * definition fails with the engine's diagnostic; otherwise the engine's
   * transform of (y, x) gives the latitude and longitude, decomposed with the
   * latitude letters and the longitude letters respectively.
   */
  function DcsToLatLonFormatted<H>(x: real, y: real, theatre: string, engine: Engine<H>): (r: Result<LatLonCoordinate>)
    requires InDomain(x, y, theatre, engine)
    ensures theatre !in Theatres ==> r == Err(UnknownTheatre(theatre))
    ensures theatre in Theatres ==>
      var built := engine.newKnownCrs(ProjDefinition(Theatres[theatre], engine.floatText), TargetCrs);
      && (built.Rejected? ==> r == Err(ProjectionInitFailed(built.diagnostic)))
      && (built.Built? ==>
            var latLon := engine.convert(built.handle, (y, x)).value;
            r == Ok(LatLonCoordinate(latLon.0, latLon.1, DecimalToDms(latLon.0, true), DecimalToDms(latLon.1, false))))
  {
    var projection :- ProjectionFromTheatre(theatre);
    var proj :- ProjFromMap(projection, engine);
    var (lat, lon) := ConvertDcsLatLon(x, y, proj, engine);
    Ok(LatLonCoordinate(lat, lon, DecimalToDms(lat, true), DecimalToDms(lon, false)))
  }

  /** Converts the bullseye of a mission: the same pipeline. */
  function ConvertBullseye<H>(x: real, y: real, theatre: string, engine: Engine<H>): (r: Result<LatLonCoordinate>)
    requires InDomain(x, y, theatre, engine)
    ensures r == DcsToLatLonFormatted(x, y, theatre, engine)
  {
    DcsToLatLonFormatted(x, y, theatre, engine)
  }

  /** Converts a waypoint of a mission: the same pipeline. */
  function ConvertWaypoint<H>(x: real, y: real, theatre: string, engine: Engine<H>): (r: Result<LatLonCoordinate>)
    requires InDomain(x, y, theatre, engine)
    ensures r == DcsToLatLonFormatted(x, y, theatre, engine)
  {
    DcsToLatLonFormatted(x, y, theatre, engine)
  }

  /**
   * An unknown theatre is reported before the engine is used: the result is
   * the same for every point and every engine.
   */
  lemma UnknownTheatreIgnoresEngine<H>(x1: real, y1: real, e1: Engine<H>, x2: real, y2: real, e2: Engine<H>, theatre: string)
    requires theatre !in Theatres
    ensures DcsToLatLonFormatted(x1, y1, theatre, e1) == DcsToLatLonFormatted(x2, y2, theatre, e2)
  {
  }

  /**
   * The engine receives the point as (y, x): with an engine that hands the
   * point straight back, the latitude is the y coordinate and the longitude
   * the x coordinate.
   */
  lemma EngineReceivesYThenX(x: real, y: real)
    ensures
      var echo := Engine((_: real) => "", (_: string, _: string) => Built(0), (_: int, p: (real, real)) => Some(p));
      var r := DcsToLatLonFormatted(x, y, "Caucasus", echo);
      r.Ok? && r.value.latDecimal == y && r.value.lonDecimal == x
  {
  }

  /**
   * A successful conversion keeps both forms in step: each DMS part is well
   * formed for its axis and converts back to the decimal value beside it.
   */
  lemma ConversionConsistent<H>(x: real, y: real, theatre: string, engine: Engine<H>)
    requires InDomain(x, y, theatre, engine)
    requires DcsToLatLonFormatted(x, y, theatre, engine).Ok?
    requires var c := DcsToLatLonFormatted(x, y, theatre, engine).value;
      Abs(c.latDecimal) < Limit && Abs(c.lonDecimal) < Limit
    ensures var c := DcsToLatLonFormatted(x, y, theatre, engine).value;
      && WellFormed(c.latDms, true) && WellFormed(c.lonDms, false)
      && ToDecimal(c.latDms, true) == c.latDecimal
      && ToDecimal(c.lonDms, false) == c.lonDecimal
  {
    var c := DcsToLatLonFormatted(x, y, theatre, engine).value;
    DecimalToDmsWellFormed(c.latDecimal, true);
    DecimalToDmsWellFormed(c.lonDecimal, false);
    DecimalRoundTrip(c.latDecimal, true);
    DecimalRoundTrip(c.lonDecimal, false);
  }

  /**
   * The display text of a successful conversion reads back as the latitude
   * and longitude parts, with seconds rounded to thousandths.
   */
  lemma ConversionTextReadsBack<H>(x: real, y: real, theatre: string, engine: Engine<H>)
    requires InDomain(x, y, theatre, engine)
    requires DcsToLatLonFormatted(x, y, theatre, engine).Ok?
    requires var c := DcsToLatLonFormatted(x, y, theatre, engine).value;
      Abs(c.latDecimal) < Limit && Abs(c.lonDecimal) < Limit
    ensures var c := DcsToLatLonFormatted(x, y, theatre, engine).value;
      && Displayable(c.latDms) && Displayable(c.lonDms)
      && ParseCoordinate(FormatCoordinate(c)) == Some((Shown(c.latDms), Shown(c.lonDms)))
  {
    var c := DcsToLatLonFormatted(x, y, theatre, engine).value;
    DecimalToDmsDisplayable(c.latDecimal, true);
    DecimalToDmsDisplayable(c.lonDecimal, false);
    ParseFormatCoordinate(c);
  }
}
