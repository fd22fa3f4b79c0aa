/**
 * The client's map (`public/js/modules/mapManager.js`): the part of the
 * MapLibre map state the rest of the client writes (the light and the
 * `barer` source), and the conversion of an Overpass building response into
 * extruded polygons (`_convertOSMToGeoJSON`).
 */
module Maps {
  import opened Common
  import opened Records

  /**
   * Where the light comes from: the polar position (compass azimuth and
   * elevation, in degrees) from which `updateSunLight` computes its
   * `[x, y, z]` vector, or `[0, 0, 1]` straight above.
   */
  datatype LightPosition = Polar(azimuth: real, elevation: real) | Overhead

  /** The configuration handed to `setLight` (the anchor is always the viewport). */
  datatype Light = Light(color: string, intensity: real, position: LightPosition)

  /**
   * The properties of a bar feature: the modular client spreads the whole
   * bar record, the legacy client copies id, navn, by, retning and harSol.
   */
  datatype FeatureProps =
    | AllFields(bar: Bar)
    | Summary(id: int, navn: string, city: string, retning: string, harSol: Option<bool>)

  /** A GeoJSON point feature at `[lng, lat]`. */
  datatype PointFeature = PointFeature(lng: real, lat: real, properties: FeatureProps)

  /**
   * The map: its current light and the features of its `barer` source
   * (`None` until the source is first added).
   */
  class MapManager {
    var light: Option<Light>
    var barSource: Option<seq<PointFeature>>

    constructor ()
      ensures light == None && barSource == None
    {
      light := None;
      barSource := None;
    }

    /** `setLight(lightConfig)`. */
    method SetLight(l: Light)
      modifies this
      ensures light == Some(l) && barSource == old(barSource)
    {
      light := Some(l);
    }

    /** `getSource('barer').setData(...)`, or `addSource('barer', ...)` the first time. */
    method SetBarSource(features: seq<PointFeature>)
      modifies this
      ensures barSource == Some(features) && light == old(light)
    {
      barSource := Some(features);
    }
  }

  /** A node's `[lon, lat]`; either may be missing in the response. */
  datatype NodeCoord = NodeCoord(lon: Option<real>, lat: Option<real>)

  /** An extruded building polygon: its outer ring, `height` (`None` is NaN) and `base_height`. */
  datatype Building = Building(ring: seq<NodeCoord>, height: Option<int>, baseHeight: int)

  predicate IsNode(e: OsmElement)
  {
    e.kind == "node"
  }

  /** A way with a tags object whose `building` tag is truthy. */
  predicate IsBuildingWay(e: OsmElement)
  {
    e.kind == "way" && e.tags.Some? && Tag(e.tags.value, "building").Some?
  }

  /** The `nodes` dictionary after the first `forEach`: every node, a later one overwriting an earlier. */
  function NodeTable(elements: seq<OsmElement>): (r: map<int, NodeCoord>)
    ensures |r| <= |elements|
    decreases |elements|
  {
    if elements == [] then map[]
    else
      var last := elements[|elements| - 1];
      var table := NodeTable(elements[..|elements| - 1]);
      if IsNode(last) then table[last.id := NodeCoord(last.lon, last.lat)] else table
  }

  /** `elements[i]` is the last node element with this id. */
  predicate LastNodeWithId(elements: seq<OsmElement>, id: int, i: int)
  {
    0 <= i < |elements| && IsNode(elements[i]) && elements[i].id == id &&
    forall j :: i < j < |elements| ==> !(IsNode(elements[j]) && elements[j].id == id)
  }

  /** An id is in the table exactly when some node element carries it. */
  lemma {:induction false} NodeTableKeys(elements: seq<OsmElement>, id: int)
    ensures id in NodeTable(elements) <==> exists i :: 0 <= i < |elements| && IsNode(elements[i]) && elements[i].id == id
    decreases |elements|
  {
    if elements != [] {
      var n := |elements| - 1;
      NodeTableKeys(elements[..n], id);
      assert forall i :: 0 <= i < n ==> elements[..n][i] == elements[i];
    }
  }

  /** The entry of an id is the position of the last node element carrying it: later nodes overwrite. */
  lemma {:induction false} NodeTableLastWins(elements: seq<OsmElement>, id: int, i: int)
    requires LastNodeWithId(elements, id, i)
    ensures id in NodeTable(elements) && NodeTable(elements)[id] == NodeCoord(elements[i].lon, elements[i].lat)
    decreases |elements|
  {
    var n := |elements| - 1;
    var init := elements[..n];
    if i < n {
      assert !(IsNode(elements[n]) && elements[n].id == id);
      assert LastNodeWithId(init, id, i);
      NodeTableLastWins(init, id, i);
    }
  }

  /** Extending the elements by one: a node updates its id's entry, anything else leaves the table alone. */
  lemma NodeTableSnoc(elements: seq<OsmElement>, e: OsmElement)
    ensures NodeTable(elements + [e]) ==
            if IsNode(e) then NodeTable(elements)[e.id := NodeCoord(e.lon, e.lat)] else NodeTable(elements)
  {
    assert (elements + [e])[..|elements|] == elements;
  }

  /** The node table depends only on the node elements, in their order. */
  lemma {:induction false} NodeTableOnlyNodes(elements: seq<OsmElement>)
    ensures NodeTable(elements) == NodeTable(Filter(elements, IsNode))
    decreases |elements|
  {
    if elements != [] {
      var n := |elements| - 1;
      var init := elements[..n];
      var last := elements[n];
      assert elements == init + [last];
      NodeTableOnlyNodes(init);
      FilterSnoc(init, last, IsNode);
      NodeTableSnoc(init, last);
      NodeTableSnoc(Filter(init, IsNode), last);
    }
  }

  /** The node references that resolve in the table, in order. */
  function Present(refs: seq<int>, table: map<int, NodeCoord>): seq<int>
  {
    Filter(refs, id => id in table)
  }

  /**
   * `el.nodes.map(nodeId => nodes[nodeId]).filter(Boolean)`: a missing node
   * is `undefined` and dropped; a present one is a two-element array, which
   * is truthy even when its coordinates are missing.
   */
  function Resolve(refs: seq<int>, table: map<int, NodeCoord>): (r: seq<NodeCoord>)
    ensures |r| <= |refs|
    ensures forall i :: 0 <= i < |r| ==> r[i] in table.Values
  {
    if refs == [] then []
    else (if refs[0] in table then [table[refs[0]]] else []) + Resolve(refs[1..], table)
  }

  /** The ring is the present references looked up one for one: missing nodes are dropped, order is kept. */
  lemma {:induction false} ResolveSpec(refs: seq<int>, table: map<int, NodeCoord>)
    ensures |Resolve(refs, table)| == |Present(refs, table)| <= |refs|
    ensures forall i :: 0 <= i < |Present(refs, table)| ==>
              Present(refs, table)[i] in table && Resolve(refs, table)[i] == table[Present(refs, table)[i]]
  {
    if refs != [] {
      ResolveSpec(refs[1..], table);
      if refs[0] in table {
        assert Present(refs, table) == [refs[0]] + Present(refs[1..], table);
      } else {
        assert [] + Present(refs[1..], table) == Present(refs[1..], table);
        assert [] + Resolve(refs[1..], table) == Resolve(refs[1..], table);
      }
    }
  }

  /** When every reference resolves, the ring is the referenced nodes one for one. */
  lemma {:induction false} ResolveComplete(refs: seq<int>, table: map<int, NodeCoord>)
    requires forall j :: 0 <= j < |refs| ==> refs[j] in table
    ensures |Resolve(refs, table)| == |refs|
    ensures forall i :: 0 <= i < |refs| ==> Resolve(refs, table)[i] == table[refs[i]]
  {
    PresentAll(refs, table);
    ResolveSpec(refs, table);
  }

  lemma {:induction false} PresentAll(refs: seq<int>, table: map<int, NodeCoord>)
    requires forall j :: 0 <= j < |refs| ==> refs[j] in table
    ensures Present(refs, table) == refs
  {
    if refs != [] {
      PresentAll(refs[1..], table);
      assert refs == [refs[0]] + refs[1..];
    }
  }

  /**
   * `parseInt(el.tags['building:levels'] || el.tags.height || 3) * 3`, with
   * `parseInt` given (`None` is NaN, and NaN times 3 is NaN).
   */
  function BuildingHeight(tags: Tags, parse: string -> Option<int>): (r: Option<int>)
    ensures Tag(tags, "building:levels").None? && Tag(tags, "height").None? ==> r == Some(9)
    ensures Tag(tags, "building:levels").Some? ==>
              r == (if parse(tags["building:levels"]).Some? then Some(3 * parse(tags["building:levels"]).value) else None)
    ensures Tag(tags, "building:levels").None? && Tag(tags, "height").Some? ==>
              r == (if parse(tags["height"]).Some? then Some(3 * parse(tags["height"]).value) else None)
  {
    match Or(Tag(tags, "building:levels"), Tag(tags, "height"))
    case None => Some(3 * 3)
    case Some(s) =>
      match parse(s)
      case None => None
      case Some(levels) => Some(3 * levels)
  }

  /** What one element contributes to `buildings`: a feature for a building way with at least 3 resolved nodes. */
  function WayFeature(e: OsmElement, table: map<int, NodeCoord>, parse: string -> Option<int>): seq<Building>
  {
    if IsBuildingWay(e) && |Resolve(e.nodes, table)| > 2 then
      [Building(Resolve(e.nodes, table), BuildingHeight(e.tags.value, parse), 0)]
    else []
  }

  /** The `buildings` array after the second `forEach`, for a given node table. */
  function Buildings(elements: seq<OsmElement>, table: map<int, NodeCoord>, parse: string -> Option<int>): seq<Building>
    decreases |elements|
  {
    if elements == [] then []
    else Buildings(elements[..|elements| - 1], table, parse) + WayFeature(elements[|elements| - 1], table, parse)
  }

  /** At most one feature per element, each with at least three corners and its base on the ground. */
  lemma {:induction false} BuildingsWellFormed(elements: seq<OsmElement>, table: map<int, NodeCoord>, parse: string -> Option<int>)
    ensures |Buildings(elements, table, parse)| <= |elements|
    ensures forall b :: b in Buildings(elements, table, parse) ==> |b.ring| >= 3 && b.baseHeight == 0
    decreases |elements|
  {
    if elements != [] {
      BuildingsWellFormed(elements[..|elements| - 1], table, parse);
    }
  }

  /** Extending the elements by one adds that element's feature, if any, at the end. */
  lemma BuildingsSnoc(elements: seq<OsmElement>, e: OsmElement, table: map<int, NodeCoord>, parse: string -> Option<int>)
    ensures Buildings(elements + [e], table, parse) == Buildings(elements, table, parse) + WayFeature(e, table, parse)
    ensures WayFeature(e, table, parse) == [] ==> Buildings(elements + [e], table, parse) == Buildings(elements, table, parse)
  {
    assert (elements + [e])[..|elements|] == elements;
    assert Buildings(elements, table, parse) + [] == Buildings(elements, table, parse);
  }

  /** Only building ways contribute features; relations and nodes never do. */
  lemma {:induction false} BuildingsOnlyWays(elements: seq<OsmElement>, table: map<int, NodeCoord>, parse: string -> Option<int>)
    ensures Buildings(elements, table, parse) == Buildings(Filter(elements, IsBuildingWay), table, parse)
    decreases |elements|
  {
    if elements != [] {
      var n := |elements| - 1;
      var init := elements[..n];
      var last := elements[n];
      assert elements == init + [last];
      BuildingsOnlyWays(init, table, parse);
      FilterSnoc(init, last, IsBuildingWay);
      BuildingsSnoc(init, last, table, parse);
      BuildingsSnoc(Filter(init, IsBuildingWay), last, table, parse);
      if !IsBuildingWay(last) {
        assert Buildings(init, table, parse) + [] == Buildings(init, table, parse);
      }
    }
  }

  /** A response without building ways yields no features. */
  lemma {:induction false} NoWaysNoBuildings(elements: seq<OsmElement>, table: map<int, NodeCoord>, parse: string -> Option<int>)
    requires forall i :: 0 <= i < |elements| ==> !IsBuildingWay(elements[i])
    ensures Buildings(elements, table, parse) == []
  {
    BuildingsOnlyWays(elements, table, parse);
  }

  /**
   * Because the table is complete before any way is read, only the node
   * elements and the building ways matter, each in its own order: how they
   * are interleaved in the response, and every other element, are irrelevant.
   */
  lemma {:induction false} ConversionIgnoresInterleaving(a: seq<OsmElement>, b: seq<OsmElement>, parse: string -> Option<int>)
    requires Filter(a, IsNode) == Filter(b, IsNode)
    requires Filter(a, IsBuildingWay) == Filter(b, IsBuildingWay)
    ensures Buildings(a, NodeTable(a), parse) == Buildings(b, NodeTable(b), parse)
  {
    NodeTableOnlyNodes(a);
    NodeTableOnlyNodes(b);
    BuildingsOnlyWays(a, NodeTable(a), parse);
    BuildingsOnlyWays(b, NodeTable(b), parse);
  }

  /**
   * `_convertOSMToGeoJSON(data)`: fill the node table from every node, then
   * push a polygon for every building way with more than two resolved nodes.
   */
  method ConvertOSMToGeoJSON(elements: seq<OsmElement>, parse: string -> Option<int>) returns (buildings: seq<Building>)
    ensures buildings == Buildings(elements, NodeTable(elements), parse)
    ensures forall b :: b in buildings ==> |b.ring| >= 3 && b.baseHeight == 0
  {
    var nodes := StoreNodes(elements);
    buildings := BuildBuildings(elements, nodes, parse);
    BuildingsWellFormed(elements, nodes, parse);
  }

  /** The first `forEach`: `nodes[el.id] = [el.lon, el.lat]` for every node. */
  method StoreNodes(elements: seq<OsmElement>) returns (nodes: map<int, NodeCoord>)
    ensures nodes == NodeTable(elements)
  {
    nodes := map[];
    var i := 0;
    while i < |elements|
      invariant 0 <= i <= |elements|
      invariant nodes == NodeTable(elements[..i])
    {
      var el := elements[i];
      assert elements[..i + 1] == elements[..i] + [el];
      NodeTableSnoc(elements[..i], el);
      if el.kind == "node" {
        nodes := nodes[el.id := NodeCoord(el.lon, el.lat)];
      }
      i := i + 1;
    }
    assert elements[..i] == elements;
  }

  /** The second `forEach`: one polygon per building way with more than two resolved nodes. */
  method BuildBuildings(elements: seq<OsmElement>, nodes: map<int, NodeCoord>, parse: string -> Option<int>)
    returns (buildings: seq<Building>)
    ensures buildings == Buildings(elements, nodes, parse)
  {
    buildings := [];
    var i := 0;
    while i < |elements|
      invariant 0 <= i <= |elements|
      invariant buildings == Buildings(elements[..i], nodes, parse)
    {
      var el := elements[i];
      assert elements[..i + 1] == elements[..i] + [el];
      BuildingsSnoc(elements[..i], el, nodes, parse);
      var pushed := BuildingOf(el, nodes, parse);
      buildings := buildings + pushed;
      i := i + 1;
    }
    assert elements[..i] == elements;
  }

  /** The body of the second `forEach` for one element: what it pushes, if anything. */
  method BuildingOf(el: OsmElement, nodes: map<int, NodeCoord>, parse: string -> Option<int>)
    returns (pushed: seq<Building>)
    ensures pushed == WayFeature(el, nodes, parse)
    ensures |pushed| <= 1
  {
    pushed := [];
    if el.kind == "way" && el.tags.Some? && Tag(el.tags.value, "building").Some? {
      var coords := Resolve(el.nodes, nodes);
      if |coords| > 2 {
        var height := BuildingHeight(el.tags.value, parse);
        pushed := [Building(coords, height, 0)];
      }
    }
  }
}
