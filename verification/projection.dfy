/**
 * Building a projection for a theatre and running the forward transform. The
 * projection library is outside the model: it appears as an `Engine`, the
 * three services the core asks of it, so that what the core sends it and
 * what it does with the answers can be stated for every engine.
 */
module Projection {
  import opened Results
  import opened Text
  import opened Registry

  /** The library's answer to a request to build a projection. */
  datatype Built<H> = Built(handle: H) | Rejected(diagnostic: string)

  /**
   * The external services: the decimal text of a float, the library's
   * constructor (definition string and target reference system), and its
   * forward transform of a point, `None` when the point is outside the
   * projection's domain.
   */
  datatype Engine<!H> = Engine(
    floatText: real -> string,
    newKnownCrs: (string, string) -> Built<H>,
    convert: (H, (real, real)) -> Option<(real, real)>)

  /** The geodetic system every theatre's grid is converted to. */
  const TargetCrs: string := "WGS84"

  /** One parameter of a PROJ definition: '+', its name, '=', its value. */
  function Param(name: string, value: string): string {
    "+" + name + "=" + value
  }

  /** The parameters of a record's definition, in the order they are written. */
  function DefinitionParams(tm: TransverseMercator, floatText: real -> string): (ps: seq<string>)
    ensures |ps| == 6
  {
    [Param("proj", "tmerc"), Param("lat_0", "0"), Param("lon_0", IntText(tm.centralMeridian)),
     Param("k_0", floatText(tm.scaleFactor)), Param("x_0", floatText(tm.falseEasting)),
     Param("y_0", floatText(tm.falseNorthing))]
  }

  /**
   * The transverse-Mercator definition of a parameter record, parameters
   * separated by single spaces: projection, latitude of origin 0, central
   * meridian, scale factor, false easting and false northing. When the float
   * texts have no space (Rust's `Display` of an `f64` never has one), the
   * words of the definition are exactly those parameters, in that order.
   */
  function ProjDefinition(tm: TransverseMercator, floatText: real -> string): (d: string)
    ensures (' ' !in floatText(tm.scaleFactor) && ' ' !in floatText(tm.falseEasting) && ' ' !in floatText(tm.falseNorthing))
      ==> Words(d) == DefinitionParams(tm, floatText)
  {
    var ps := DefinitionParams(tm, floatText);
    ParamsHaveNoSpace(tm, floatText);
    WordsOfJoin(ps);
    JoinWords(ps)
  }

  lemma ParamsHaveNoSpace(tm: TransverseMercator, floatText: real -> string)
    ensures (' ' !in floatText(tm.scaleFactor) && ' ' !in floatText(tm.falseEasting) && ' ' !in floatText(tm.falseNorthing))
      ==> forall i :: 0 <= i < 6 ==> ' ' !in DefinitionParams(tm, floatText)[i]
  {
    IntTextHasNoSpace(tm.centralMeridian);
  }

  /**
   * The central meridian can be read back from a definition: its third word
   * is "+lon_0=" followed by the meridian's decimal text.
   */
  lemma DefinitionNamesMeridian(tm: TransverseMercator, floatText: real -> string)
    ensures var ws := Words(ProjDefinition(tm, floatText));
      && |ws| > 2 && var w := ws[2];
      && |w| > 7 && w[..7] == "+lon_0="
      && w[7..] == IntText(tm.centralMeridian) && ParseInt(w[7..]) == tm.centralMeridian
  {
    var ps := DefinitionParams(tm, floatText);
    assert ProjDefinition(tm, floatText) == JoinWords(ps);
    IntTextHasNoSpace(tm.centralMeridian);
    ThirdWord(ps);
    LonParam(IntText(tm.centralMeridian));
    ParseIntText(tm.centralMeridian);
  }

  lemma LonParam(v: string)
    ensures var w := Param("lon_0", v); |w| == 7 + |v| && w[..7] == "+lon_0=" && w[7..] == v
  {
    var w := Param("lon_0", v);
    assert w == "+lon_0=" + v;
    assert |"+lon_0="| == 7;
    assert w[..7] == "+lon_0=" && w[7..] == v;
  }

  /**
   * Asks the engine for the projection of a parameter record, from its
   * definition string to WGS84. A refusal becomes `ProjectionInitFailed`
   * carrying the engine's diagnostic.
   */
  function ProjFromMap<H>(tm: TransverseMercator, engine: Engine<H>): (r: Result<H>)
    ensures var built := engine.newKnownCrs(ProjDefinition(tm, engine.floatText), TargetCrs);
      && (r.Ok? <==> built.Built?)
      && (r.Ok? ==> r.value == built.handle)
      && (r.Err? ==> r.error == ProjectionInitFailed(built.diagnostic))
  {
    match engine.newKnownCrs(ProjDefinition(tm, engine.floatText), TargetCrs)
    case Built(h) => Ok(h)
    case Rejected(d) => Err(ProjectionInitFailed(d))
  }

  /**
   * The forward transform of a simulator point. The engine is handed the
   * point as (y, x); its answer is returned as it comes, the pair the facade
   * labels (latitude, longitude). A point outside the projection's domain is
   * a panic in the source, hence the requires.
   */
  function ConvertDcsLatLon<H>(x: real, y: real, proj: H, engine: Engine<H>): (latLon: (real, real))
    requires engine.convert(proj, (y, x)).Some?
    ensures Some(latLon) == engine.convert(proj, (y, x))
  {
    engine.convert(proj, (y, x)).value
  }
}
