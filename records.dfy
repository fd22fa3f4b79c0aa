/**
 * The records that travel between the server and the clients: a bar as
 * parsed from OpenStreetMap (or taken from the fallback list), the sun
 * position in degrees, and a raw Overpass element.
 */
module Records {
  import opened Common

  /** An instant, in milliseconds since the epoch (a JavaScript `Date`). */
  type Instant = int

  /** Sun position in degrees. The azimuth is SunCalc's: measured from south, in [-180, 180]. */
  datatype SunPosition = SunPosition(altitude: real, azimuth: real)

  /**
   * The sun position provider (SunCalc's `getPosition`), already converted
   * from radians to degrees: (latitude, longitude, instant) to position.
   */
  type SunCalcFn = (real, real, Instant) -> SunPosition

  /** The two fields the controller adds to a bar: `harSol` and `solInfo`. */
  datatype SunStatus = SunStatus(harSol: bool, solInfo: SunPosition)

  /** The optional descriptive fields of a bar parsed from OpenStreetMap. */
  datatype Details = Details(
    amenity: Option<string>,
    openingHours: Option<string>,
    website: Option<string>,
    phone: Option<string>,
    email: Option<string>,
    address: Option<string>,
    description: Option<string>,
    cuisine: Option<string>,
    outdoorSeating: Option<string>,
    osmId: Option<int>,
    osmType: Option<string>)

  /** The fallback bars carry none of the descriptive fields. */
  const NoDetails := Details(None, None, None, None, None, None, None, None, None, None, None)

  /**
   * A bar record. `city` is the source's `by` field and `retning` the Danish orientation of its facade
   * (`nord`, `øst`, `syd` or `vest`); `sun` is absent until the controller
   * adds `harSol` and `solInfo`.
   */
  datatype Bar = Bar(
    id: int,
    navn: string,
    city: string,
    lat: real,
    lng: real,
    retning: string,
    details: Details,
    sun: Option<SunStatus>)

  /** OSM tags: every tag value is a string. */
  type Tags = map<string, string>

  /** The `center` of a way, as Overpass reports it with `out center`. */
  datatype Center = Center(lat: Option<real>, lon: Option<real>)

  /** One element of an Overpass response (`node`, `way`, `relation`, ...). */
  datatype OsmElement = OsmElement(
    kind: string,
    id: int,
    tags: Option<Tags>,
    lat: Option<real>,
    lon: Option<real>,
    center: Option<Center>,
    nodes: seq<int>)

  /**
   * A tag read in a truthy position (`tags.name || ...`, `if (tags[k])`):
   * a missing tag and the empty string are both falsy.
   */
  function Tag(tags: Tags, key: string): (r: Option<string>)
    ensures r.Some? <==> key in tags && tags[key] != ""
    ensures r.Some? ==> r.value == tags[key]
  {
    if key in tags && tags[key] != "" then Some(tags[key]) else None
  }

  /** A number read in a truthy position: a missing number and 0 are falsy. */
  function TruthyNumber(x: Option<real>): (r: Option<real>)
    ensures r.Some? <==> x.Some? && x.value != 0.0
    ensures r.Some? ==> r == x
  {
    if x.Some? && x.value != 0.0 then x else None
  }

  /** `bar.harSol` in a truthy position. */
  predicate HarSol(b: Bar)
  {
    b.sun.Some? && b.sun.value.harSol
  }

  /** The orientation keys of the source's `DIRECTIONS` table. */
  const Orientations: set<string> := {"nord", "øst", "syd", "vest"}
}
