# ReadyRoom coordinate projections, modelled in Dafny

ReadyRoom turns the planar coordinates of a flight-simulator mission (a
local grid per map, or "theatre") into latitude and longitude. This project
models the core of `reference/projections.rs`:

- the **theatre registry**: eight theatre names, each mapped to the
  transverse-Mercator parameters of its grid, with every other name an error;
- the **projection builder and forward converter**: the definition string
  sent to the projection library and the (y, x) axis order of the point it
  is given; the library itself is a parameter (`Projection.Engine`);
- the **DMS codec**: splitting a decimal angle into degrees, minutes,
  seconds and a direction letter, and rendering it as `37°46'29.640"N`;
- the **conversion facade**: lookup, build, transform and the two DMS
  decompositions, with its two named entry points for bullseyes and
  waypoints.

Files: `results.dfy` (errors and results), `registry.dfy`, `dms.dfy`,
`text.dfy` (Rust's integer formatting and its inverse), `dms_format.dfy`,
`projection.dfy`, `facade.dfy`.

Modelling choices:

- `f64` values are `real`s. The truncating, saturating `as i32` cast is
  written out (`Dms.TruncToI32`); the bounds and reconstruction lemmas hold
  for angles below 2^31 degrees, where the cast does not saturate.
- The three-decimal printing of seconds is modelled as rounding the exact
  real to the nearest thousandth, an exact tie going to the even
  thousandth as Rust's formatter does (`DmsFormat.RoundMillis`).
- Each formatted output has a reader (`Text.ParseNat`, `Text.ParseInt`,
  `DmsFormat.ParseDms`, `DmsFormat.ParseCoordinate`, and `Text.Words` for
  the projection definition) so that the layouts are stated as round trips.
  The definition string is written as its six `+name=value` parameters
  joined by single spaces, which is the text of its format string.
- The projection library is an `Engine` value holding three functions: the
  decimal text of a float, the constructor from a definition string and a
  target reference system, and the forward transform (`None` outside the
  projection's domain).
- An out-of-domain point is a panic in `convert_dcs_lat_lon`
  (`.unwrap()`), so the facade has the precondition `Facade.InDomain`; an
  unknown theatre's error message is "TransverseMercator not known for
  <name>".
- The engine's answer is taken in the order `dcs_to_lat_lon_formatted`
  labels it, (latitude, longitude). The test at
  reference/projections.rs:198-203 binds the same answer as `(x, y)` and
  expects the first component near 55.37 (PersianGulf's central meridian
  is 57) and the second near 25.26, which reads as longitude first; the
  model does not decide which order the library uses, since the library is
  a parameter.

## Model

| member | source | states |
|---|---|---|
| Results.Message | reference/projections.rs:99 | an unknown-theatre error reads "TransverseMercator not known for " followed by the name; a projection failure carries the engine's diagnostic |
| Registry.ProjectionFromTheatre | reference/projections.rs:89-101 | succeeds exactly for the eight registered names, with that name's parameter record from the table; any other string fails with `UnknownTheatre` naming it |
| Registry.ParametersDistinct | reference/projections.rs:14-68 | no two registered theatres share a parameter record, so the lookup is injective |
| Registry.RegisteredParametersInRange | reference/projections.rs:14-68 | every registered grid has scale factor 0.9996 and a central meridian within [-180, 180] |
| Registry.NearMissesRejected | reference/projections.rs:89-100 | matching is exact: lower-case, upper-case, truncated, space-prefixed and empty names are rejected |
| Dms.TruncToI32 | reference/projections.rs:129-131 | `as i32` truncates toward zero below 2^31 in magnitude and saturates at the `i32` bounds beyond |
| Dms.DecimalToDms | reference/projections.rs:127-147 | degrees, minutes and seconds are non-negative; with the latitude flag the letter is 'N' iff the value is >= 0 and 'S' iff it is negative, without it 'E' and 'W' likewise |
| Dms.DmsBounds | reference/projections.rs:128-132 | below 2^31, degrees is the truncation of the absolute value, minutes the truncation of the remaining minutes, minutes in [0, 59] and seconds in [0, 60) |
| Dms.DmsReconstruction | reference/projections.rs:128-132 | degrees + minutes/60 + seconds/3600 equals the absolute value |
| Dms.DecimalToDmsWellFormed | reference/projections.rs:127-147 | every result below 2^31 is well formed: parts in range, a letter of the axis, no negative zero |
| Dms.DecimalRoundTrip | reference/projections.rs:127-147 | converting to DMS and back with the sign of the letter gives the original angle |
| Dms.DmsRoundTrip | reference/projections.rs:127-147 | every well-formed DMS value is exactly the decomposition of the angle it denotes, so the decomposition is unique |
| Dms.NegationKeepsParts | reference/projections.rs:128-139 | v and -v have the same degrees, minutes and seconds; for v other than 0 their letters differ |
| Dms.DegreesSaturate | reference/projections.rs:129 | from 2^31 degrees on, the degree count is the largest `i32` |
| Dms.NorthernLatitudeExample | reference/projections.rs:240-244 | 37.7749 as a latitude is 37 degrees, 46 minutes, 29.64 seconds, 'N' |
| Dms.WesternLongitudeExample | reference/projections.rs:246-250 | -122.4194 as a longitude is 122 degrees, 25 minutes, 9.84 seconds, 'W' |
| Text.NatText | reference/projections.rs:165-166 | the decimal text of a non-negative integer is a non-empty digit string without a leading zero |
| Text.ParseNatText | reference/projections.rs:165-166 | reading back the decimal text of a number gives the number |
| Text.ParseIntText | reference/projections.rs:106-107 | reading back the text of a signed integer gives the integer |
| Text.IntText | reference/projections.rs:106-107 | `{}` of an integer starts with '-' exactly when it is negative and is digits otherwise; `Text.ParseIntText` reads it back |
| Text.PaddedIntText | reference/projections.rs:165-167 | `{:02}` and the like: at least the width, '-' first exactly when negative, and a non-negative number is all digits and reads back as itself |
| Text.TwoDigitText | reference/projections.rs:165-167 | `{:02}` of a number below 100 is its tens digit then its units digit |
| DmsFormat.RoundMillis | reference/projections.rs:165-168 | the seconds shown are the nearest thousandth of the seconds; of two equally near, the even one |
| DmsFormat.FixedMillisText | reference/projections.rs:165-168 | the three-decimal text of a count of thousandths has the point fourth from the end with digits on both sides |
| DmsFormat.FixedMillisReadsBack | reference/projections.rs:165-168 | the units before the point times 1000 plus the three decimals give back the count of thousandths |
| DmsFormat.SecondsText | reference/projections.rs:165-168 | `{:06.3}` of the seconds is at least six characters, starts with '-' exactly when negative and has the point fourth from the end |
| DmsFormat.TiesShowEvenMillis | reference/projections.rs:165-168 | seconds exactly between two thousandths show the even one: 0.0625 shows as 00.062, 0.1875 as 00.188 |
| DmsFormat.MillisLayout | reference/projections.rs:165-168 | the seconds field of a value shown below 100 is exactly six characters: two digits, '.', three decimals |
| DmsFormat.FormatDms | reference/projections.rs:164-171 | the text is at least 13 characters and ends with a double quote and the direction letter |
| DmsFormat.FormatDmsLayout | reference/projections.rs:164-171 | the text is the unpadded degree digits, '°', two minute digits, an apostrophe, the six-character seconds field, a double quote and the letter |
| DmsFormat.ParseFormatDms | reference/projections.rs:164-171 | reading the text back gives the degrees, the minutes, the seconds rounded to thousandths and the letter |
| DmsFormat.FormatCoordinate | reference/projections.rs:174-179 | the text contains a space, and when the latitude text has none of its own, splitting at the first space gives the latitude text and the longitude text |
| DmsFormat.ParseFormatCoordinate | reference/projections.rs:174-179 | a coordinate's text splits at its single space into the latitude text and the longitude text, each reading back as its DMS parts |
| DmsFormat.DecimalToDmsDisplayable | reference/projections.rs:127-171 | below 2^31, every decomposition has the fixed-width layout and its seconds show at most 60.000 |
| DmsFormat.NorthernLatitudeText | reference/projections.rs:253-258 | 37.7749 as a latitude displays as 37°46'29.640"N |
| DmsFormat.SixtySecondsShown | reference/projections.rs:164-171 | seconds below 60 can display as 60.000 (59.9996 seconds north shows as 0°00'60.000"N): rounding never carries into the minutes |
| Projection.ProjDefinition | reference/projections.rs:105-108 | when the float texts have no space, the words of the definition are exactly `+proj=tmerc`, `+lat_0=0`, `+lon_0=`, `+k_0=`, `+x_0=`, `+y_0=` with the meridian, scale factor, false easting and false northing, in that order |
| Projection.DefinitionNamesMeridian | reference/projections.rs:105-108 | for every record, the third word of the definition is "+lon_0=" followed by text that reads back as the central meridian |
| Projection.ProjFromMap | reference/projections.rs:103-113 | the engine is asked for the record's definition against WGS84; success gives its handle, refusal a `ProjectionInitFailed` with the engine's diagnostic |
| Projection.ConvertDcsLatLon | reference/projections.rs:115-117 | the engine transforms the point given as (y, x) and its answer is returned unchanged, as the pair the facade labels (latitude, longitude) |
| Facade.DcsToLatLonFormatted | reference/projections.rs:149-161 | unknown theatre: `UnknownTheatre`; refused definition: `ProjectionInitFailed`; otherwise the engine's transform of (y, x) as decimals, the latitude decomposed with N/S and the longitude with E/W |
| Facade.ConvertBullseye | reference/projections.rs:181-184 | returns exactly what the conversion pipeline returns |
| Facade.ConvertWaypoint | reference/projections.rs:186-189 | returns exactly what the conversion pipeline returns |
| Facade.UnknownTheatreIgnoresEngine | reference/projections.rs:150-151 | for an unknown theatre the result is the same for every point and every engine: the lookup fails before the engine is used |
| Facade.EngineReceivesYThenX | reference/projections.rs:115-117 | with an engine that echoes its input, the latitude is the y coordinate and the longitude the x coordinate |
| Facade.ConversionConsistent | reference/projections.rs:150-161 | in a successful conversion each DMS part is well formed for its axis and converts back to the decimal value beside it |
| Facade.ConversionTextReadsBack | reference/projections.rs:174-179 | the display text of a successful conversion reads back as both DMS parts with seconds rounded to thousandths |

## Left out

- `offset` (reference/projections.rs:119-124): it needs sine and cosine of floats, which the model cannot reason about, and its tests (bearing 0 moves +y, 90 moves +x) disagree with its code (bearing 0 moves +x); neither reading is modelled.
- The projection library itself: `Proj::new_known_crs` and `Proj::convert` are the `Engine` parameter, so the end-to-end test value for PersianGulf (reference/projections.rs:198-204) is not modelled.
- The `Display` text of an `f64` in the projection definition is the engine's `floatText` function; only the integer central meridian's text is modelled.
- Projection.ProjDefinition: its words are stated for float texts without a space, which Rust's `Display` of an `f64` never produces; the engine's `floatText` is not otherwise constrained.
- The `Debug` text of the library's error is the engine's `diagnostic` string.
- Projection.ConvertDcsLatLon: the panic of `.unwrap()` on an out-of-domain point is a precondition (`Facade.InDomain` for the facade), not an error result.
- Floating point: NaN, infinities and -0.0 are not modelled; -0.0 would take the 'N'/'E' branch in the source as 0 does here.
- Dms.DecimalToDms: computed on exact reals, so the small binary rounding errors of the source's multiplications (why its tests compare seconds approximately) are not modelled.
- DmsFormat.RoundMillis: rounds the exact real, ties to even; Rust rounds the binary value of the float, so a decimal seconds value that is not exactly representable (0.0005, say, stored just above or below) can round the other way.
- Registry constants: the decimal literals of the source are kept as exact reals, not as the nearest `f64` values.
- Serde derives on the records and the approximate-equality test harness: serialization and test plumbing.
