/**
 * The theatre projection registry: a closed, exact-match table from the name
 * of a simulator map to the transverse-Mercator parameters of its planar grid.
 */
module Registry {
  import opened Results

  /** Rust's `i16`. */
  type I16 = x: int | -0x8000 <= x < 0x8000

  /** The parameters of one theatre's transverse-Mercator grid (f64 fields as reals). */
  datatype TransverseMercator = TransverseMercator(
    centralMeridian: I16,
    falseEasting: real,
    falseNorthing: real,
    scaleFactor: real)

  const PG := TransverseMercator(57, 75755.99999999645, -2894933.0000000377, 0.9996)
  const SA := TransverseMercator(-57, 147639.99999997593, 5815417.000000032, 0.9996)
  const CAUC := TransverseMercator(33, -99516.99999997323, -4998114.999999984, 0.9996)
  const MAR := TransverseMercator(147, 238417.99999989968, -1491840.000000048, 0.9996)
  const NV := TransverseMercator(-117, -193996.80999964548, -4410028.063999966, 0.9996)
  const NORM := TransverseMercator(-3, -195526.00000000204, -5484812.999999951, 0.9996)
  const SY := TransverseMercator(39, 282801.00000003993, -3879865.9999999935, 0.9996)
  const SI := TransverseMercator(33, 169221.9999999585, -3325312.9999999693, 0.9996)

  /** The registry as a table: the reference the lookup is checked against. */
  const Theatres: map<string, TransverseMercator> := map[
    "PersianGulf" := PG,
    "Falklands" := SA,
    "Caucasus" := CAUC,
    "MarianaIslands" := MAR,
    "Nevada" := NV,
    "Normandy" := NORM,
    "Syria" := SY,
    "SinaiMap" := SI]

  /**
   * Looks up a theatre by exact name. Every registered name succeeds with its
   * own record; every other string, case variants included, is an
   * `UnknownTheatre` error naming the string.
   */
  function ProjectionFromTheatre(theatre: string): (r: Result<TransverseMercator>)
    ensures r.Ok? <==> theatre in Theatres
    ensures r.Ok? ==> r.value == Theatres[theatre]
    ensures r.Err? ==> r.error == UnknownTheatre(theatre)
  {
    if theatre == "PersianGulf" then Ok(PG)
    else if theatre == "Falklands" then Ok(SA)
    else if theatre == "Caucasus" then Ok(CAUC)
    else if theatre == "MarianaIslands" then Ok(MAR)
    else if theatre == "Nevada" then Ok(NV)
    else if theatre == "Normandy" then Ok(NORM)
    else if theatre == "Syria" then Ok(SY)
    else if theatre == "SinaiMap" then Ok(SI)
    else Err(UnknownTheatre(theatre))
  }

  /** No two theatres share a parameter record: the lookup is injective. */
  lemma ParametersDistinct(t1: string, t2: string)
    requires ProjectionFromTheatre(t1).Ok? && ProjectionFromTheatre(t2).Ok?
    requires ProjectionFromTheatre(t1).value == ProjectionFromTheatre(t2).value
    ensures t1 == t2
  {
  }

  /**
   * Every registered grid uses scale factor 0.9996 and a central meridian
   * that is a real longitude.
   */
  lemma RegisteredParametersInRange(theatre: string)
    requires ProjectionFromTheatre(theatre).Ok?
    ensures ProjectionFromTheatre(theatre).value.scaleFactor == 0.9996
    ensures -180 <= ProjectionFromTheatre(theatre).value.centralMeridian <= 180
  {
  }

  /** Matching is exact: no case folding, no trimming, no prefix match. */
  lemma NearMissesRejected()
    ensures ProjectionFromTheatre("persiangulf") == Err(UnknownTheatre("persiangulf"))
    ensures ProjectionFromTheatre("PERSIANGULF").Err?
    ensures ProjectionFromTheatre("Sinai").Err?
    ensures ProjectionFromTheatre(" Syria").Err?
    ensures ProjectionFromTheatre("").Err?
  {
    assert "persiangulf"[0] != "PersianGulf"[0];
    assert "PERSIANGULF"[1] != "PersianGulf"[1];
    assert |"Sinai"| != |"SinaiMap"|;
  }
}
