/**
 * Turning an Overpass response into bar records
 * (`src/services/overpassService.js`): which elements are kept, how ids are
 * numbered, how the address, the city and the orientation are derived.
 */
module OverpassService {
  import opened Common
  import opened Records

  /** `element.lat || (element.center && element.center.lat)`, or missing when falsy. */
  function Latitude(e: OsmElement): (r: Option<real>)
    ensures r.Some? ==> r.value != 0.0 && (r == e.lat || (e.center.Some? && r == e.center.value.lat))
  {
    Or(TruthyNumber(e.lat), if e.center.Some? then TruthyNumber(e.center.value.lat) else None)
  }

  /** `element.lon || (element.center && element.center.lon)`, or missing when falsy. */
  function Longitude(e: OsmElement): (r: Option<real>)
    ensures r.Some? ==> r.value != 0.0 && (r == e.lon || (e.center.Some? && r == e.center.value.lon))
  {
    Or(TruthyNumber(e.lon), if e.center.Some? then TruthyNumber(e.center.value.lon) else None)
  }

  /** The element is a node or a way and has a tags object (even an empty one). */
  predicate Considered(e: OsmElement)
  {
    (e.kind == "node" || e.kind == "way") && e.tags.Some?
  }

  /** The element becomes a bar: it is considered and both coordinates are truthy. */
  predicate Kept(e: OsmElement): (r: bool)
    ensures r ==> e.kind != "relation" && e.tags.Some?
    ensures r ==> Latitude(e).Some? && Latitude(e).value != 0.0 && Longitude(e).Some? && Longitude(e).value != 0.0
  {
    Considered(e) && Latitude(e).Some? && Longitude(e).Some?
  }

  /** Which coordinate wins: the element's own, then its centre's; a 0 counts as missing. */
  lemma {:induction false} CoordinatePreference(e: OsmElement)
    ensures e.lat.Some? && e.lat.value != 0.0 ==> Latitude(e) == e.lat
    ensures (e.lat.None? || e.lat == Some(0.0)) ==>
              Latitude(e) == (if e.center.Some? then TruthyNumber(e.center.value.lat) else None)
    ensures Latitude(e).Some? ==> Latitude(e).value != 0.0
  {
  }

  /** `tags.name || tags['name:da'] || 'Unavngiven bar'`. */
  function BarName(tags: Tags): (r: string)
    ensures r != ""
    ensures Tag(tags, "name").Some? ==> r == tags["name"]
    ensures Tag(tags, "name").None? && Tag(tags, "name:da").Some? ==> r == tags["name:da"]
    ensures Tag(tags, "name").None? && Tag(tags, "name:da").None? ==> r == "Unavngiven bar"
  {
    OrElse(Or(Tag(tags, "name"), Tag(tags, "name:da")), "Unavngiven bar")
  }

  /** The street line of an address: the street, then its house number when there is one. */
  function StreetLine(tags: Tags): string
    requires Tag(tags, "addr:street").Some?
  {
    var street := tags["addr:street"];
    if Tag(tags, "addr:housenumber").Some? then street + " " + tags["addr:housenumber"] else street
  }

  /** The city line of an address: the postcode, when there is one, then the city. */
  function CityLine(tags: Tags): string
    requires Tag(tags, "addr:city").Some?
  {
    var city := tags["addr:city"];
    if Tag(tags, "addr:postcode").Some? then tags["addr:postcode"] + " " + city else city
  }

  /**
   * `buildAddress`: collect the street line and the city line into `parts`
   * and join them with ", ". A house number without a street and a postcode
   * without a city are dropped; with neither street nor city the result is null.
   */
  method BuildAddress(tags: Tags) returns (address: Option<string>)
    ensures address == Address(tags)
    ensures address.None? <==> Tag(tags, "addr:street").None? && Tag(tags, "addr:city").None?
    ensures Tag(tags, "addr:street").Some? && Tag(tags, "addr:city").None? ==>
              address == Some(StreetLine(tags))
    ensures Tag(tags, "addr:street").None? && Tag(tags, "addr:city").Some? ==>
              address == Some(CityLine(tags))
    ensures Tag(tags, "addr:street").Some? && Tag(tags, "addr:city").Some? ==>
              address == Some(StreetLine(tags) + ", " + CityLine(tags))
  {
    var parts: seq<string> := [];
    if Tag(tags, "addr:street").Some? {
      var street := tags["addr:street"];
      if Tag(tags, "addr:housenumber").Some? {
        street := street + " " + tags["addr:housenumber"];
      }
      parts := parts + [street];
    }
    if Tag(tags, "addr:postcode").Some? && Tag(tags, "addr:city").Some? {
      parts := parts + [tags["addr:postcode"] + " " + tags["addr:city"]];
    } else if Tag(tags, "addr:city").Some? {
      parts := parts + [tags["addr:city"]];
    }
    if |parts| > 0 {
      assert |parts| == 2 ==> Join(parts, ", ") == parts[0] + ", " + parts[1];
      address := Some(Join(parts, ", "));
    } else {
      address := None;
    }
  }

  /** An inclusive bounding box. */
  datatype Box = Box(minLat: real, maxLat: real, minLng: real, maxLng: real)

  predicate InBox(b: Box, lat: real, lng: real)
  {
    b.minLat <= lat <= b.maxLat && b.minLng <= lng <= b.maxLng
  }

  const AarhusBox := Box(56.13, 56.20, 10.15, 10.26)
  const KobenhavnBox := Box(55.6, 55.75, 12.5, 12.65)
  const OdenseBox := Box(55.35, 55.45, 10.35, 10.45)
  const AalborgBox := Box(57.0, 57.1, 9.85, 10.0)

  const Cities: set<string> := {"Aarhus", "København", "Odense", "Aalborg", "Ukendt"}

  /**
   * `determineCityFromCoords`. The four boxes are disjoint, so the order of
   * the tests does not matter: each city is returned exactly inside its box,
   * and 'Ukendt' exactly outside all four.
   */
  function DetermineCityFromCoords(lat: real, lng: real): (r: string)
    ensures r in Cities
    ensures r == "Aarhus" <==> InBox(AarhusBox, lat, lng)
    ensures r == "København" <==> InBox(KobenhavnBox, lat, lng)
    ensures r == "Odense" <==> InBox(OdenseBox, lat, lng)
    ensures r == "Aalborg" <==> InBox(AalborgBox, lat, lng)
    ensures r == "Ukendt" <==>
              !InBox(AarhusBox, lat, lng) && !InBox(KobenhavnBox, lat, lng) &&
              !InBox(OdenseBox, lat, lng) && !InBox(AalborgBox, lat, lng)
  {
    if InBox(AarhusBox, lat, lng) then "Aarhus"
    else if InBox(KobenhavnBox, lat, lng) then "København"
    else if InBox(OdenseBox, lat, lng) then "Odense"
    else if InBox(AalborgBox, lat, lng) then "Aalborg"
    else "Ukendt"
  }

  /** The reference point of the orientation heuristic (Aarhus centre). */
  const CenterLat: real := 56.1629
  const CenterLng: real := 10.2039

  /**
   * `determineOrientation`: north or south when the latitude offset from the
   * centre is strictly larger in magnitude, otherwise east or west (so ties,
   * and the centre itself, go to east/west, and the centre gives 'vest').
   */
  function DetermineOrientation(lat: real, lng: real): (r: string)
    ensures r in Orientations
    ensures (r == "nord" || r == "syd") <==> Abs(lat - CenterLat) > Abs(lng - CenterLng)
    ensures r == "nord" ==> lat > CenterLat
    ensures r == "syd" ==> lat <= CenterLat
    ensures r == "øst" ==> lng > CenterLng
    ensures r == "vest" ==> lng <= CenterLng
  {
    var latDiff := lat - CenterLat;
    var lngDiff := lng - CenterLng;
    if Abs(latDiff) > Abs(lngDiff) then
      (if latDiff > 0.0 then "nord" else "syd")
    else
      (if lngDiff > 0.0 then "øst" else "vest")
  }

  /** How far the offset (latDiff, lngDiff) points in the direction an orientation names. */
  function Projection(retning: string, latDiff: real, lngDiff: real): real
  {
    if retning == "nord" then latDiff
    else if retning == "syd" then -latDiff
    else if retning == "øst" then lngDiff
    else -lngDiff
  }

  /**
   * Reference reading of the heuristic: the chosen orientation is one whose
   * direction the bar's offset from the centre points furthest along.
   */
  lemma {:induction false} OrientationMaximisesProjection(lat: real, lng: real, other: string)
    requires other in Orientations
    ensures Projection(DetermineOrientation(lat, lng), lat - CenterLat, lng - CenterLng) >=
            Projection(other, lat - CenterLat, lng - CenterLng)
  {
    var r := DetermineOrientation(lat, lng);
    assert r == "nord" || r == "syd" || r == "øst" || r == "vest";
  }

  /** Example of `DetermineOrientation`: the orientation at the centre itself. */
  lemma CentreFacesWest()
    ensures DetermineOrientation(CenterLat, CenterLng) == "vest"
  {
  }

  /** The bar record pushed for a kept element, with the given id. */
  function ToBar(e: OsmElement, id: int): (b: Bar)
    requires Kept(e)
    ensures b.id == id && b.navn != "" && b.city in Cities && b.retning in Orientations
    ensures b.city == DetermineCityFromCoords(b.lat, b.lng) && b.retning == DetermineOrientation(b.lat, b.lng)
    ensures b.lat == Latitude(e).value && b.lng == Longitude(e).value
    ensures b.details.osmId == Some(e.id) && b.details.osmType == Some(e.kind)
    ensures b.sun.None?
  {
    var tags := e.tags.value;
    var lat := Latitude(e).value;
    var lng := Longitude(e).value;
    Bar(
      id,
      BarName(tags),
      DetermineCityFromCoords(lat, lng),
      lat,
      lng,
      DetermineOrientation(lat, lng),
      Details(
        if "amenity" in tags then Some(tags["amenity"]) else None,
        Tag(tags, "opening_hours"),
        Or(Tag(tags, "website"), Tag(tags, "contact:website")),
        Or(Tag(tags, "phone"), Tag(tags, "contact:phone")),
        Or(Tag(tags, "email"), Tag(tags, "contact:email")),
        Address(tags),
        Tag(tags, "description"),
        Tag(tags, "cuisine"),
        Tag(tags, "outdoor_seating"),
        Some(e.id),
        Some(e.kind)),
      None)
  }

  /** The value `BuildAddress` computes, for use inside functions. */
  function Address(tags: Tags): (r: Option<string>)
    ensures r.None? <==> Tag(tags, "addr:street").None? && Tag(tags, "addr:city").None?
  {
    var street := if Tag(tags, "addr:street").Some? then [StreetLine(tags)] else [];
    var city := if Tag(tags, "addr:city").Some? then [CityLine(tags)] else [];
    if street + city == [] then None else Some(Join(street + city, ", "))
  }

  /** The elements that become bars, in input order. */
  function KeptElements(elements: seq<OsmElement>): (r: seq<OsmElement>)
    ensures |r| <= |elements|
    ensures forall e :: e in r <==> e in elements && Kept(e)
    ensures forall i :: 0 <= i < |r| ==> Kept(r[i])
    ensures Subseq(r, elements)
    ensures forall e :: multiset(r)[e] == if Kept(e) then multiset(elements)[e] else 0
  {
    FilterIsSubseq(elements, Kept);
    FilterMultiset(elements, Kept);
    Filter(elements, Kept)
  }

  /** `bars` is what the loop has pushed after reading `prefix`: the kept elements so far, numbered from 1. */
  predicate ParsedPrefix(prefix: seq<OsmElement>, bars: seq<Bar>)
  {
    var kept := Filter(prefix, Kept);
    |bars| == |kept| && forall j :: 0 <= j < |bars| ==> bars[j] == ToBar(kept[j], j + 1)
  }

  /** One more element: a kept one is pushed with the next id, any other leaves the bars alone. */
  lemma ParsedSnoc(prefix: seq<OsmElement>, e: OsmElement, bars: seq<Bar>)
    requires ParsedPrefix(prefix, bars)
    ensures Kept(e) ==> ParsedPrefix(prefix + [e], bars + [ToBar(e, |bars| + 1)])
    ensures !Kept(e) ==> ParsedPrefix(prefix + [e], bars)
  {
    FilterSnoc(prefix, e, Kept);
  }

  /**
   * `parseOSMBars`: walk the elements, skip those that are not kept, and
   * push a bar for each kept one with the next id. The bars are exactly the
   * kept elements in input order, numbered 1, 2, 3, ...
   */
  method ParseOSMBars(elements: seq<OsmElement>) returns (bars: seq<Bar>)
    ensures |bars| == |KeptElements(elements)| <= |elements|
    ensures forall i :: 0 <= i < |bars| ==> bars[i] == ToBar(KeptElements(elements)[i], i + 1)
    ensures forall i :: 0 <= i < |bars| ==> bars[i].id == i + 1
  {
    bars := [];
    var idCounter := 1;
    var i := 0;
    while i < |elements|
      invariant 0 <= i <= |elements|
      invariant idCounter == |bars| + 1
      invariant ParsedPrefix(elements[..i], bars)
    {
      var element := elements[i];
      assert elements[..i + 1] == elements[..i] + [element];
      ParsedSnoc(elements[..i], element, bars);
      var bar := ElementToBar(element, idCounter);
      if bar.Some? {
        bars := bars + [bar.value];
        idCounter := idCounter + 1;
      }
      i := i + 1;
    }
    assert elements[..i] == elements;
  }

  /** The body of the `forEach` for one element: the bar it pushes with the given id, if any. */
  method ElementToBar(element: OsmElement, id: int) returns (bar: Option<Bar>)
    ensures bar.Some? <==> Kept(element)
    ensures bar.Some? ==> bar.value == ToBar(element, id)
  {
    bar := None;
    if Considered(element) {
      var lat := Latitude(element);
      var lng := Longitude(element);
      if lat.Some? && lng.Some? {
        var address := BuildAddress(element.tags.value);
        assert address == Address(element.tags.value);
        bar := Some(ToBar(element, id));
      }
    }
  }
}
