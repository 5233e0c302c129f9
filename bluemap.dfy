/**
 * The BlueMap backend's markers: keeping one extrude marker per claim in a
 * per-world marker set, and pushing a claim's traced outline into it.
 *
 * BlueMap's own objects are modelled by what this code reads and writes of
 * them: a `Marker` (shape, vertical extent, holes, label, colours), a
 * `MarkerSet` (a label and a token-keyed table of markers) and a `BlueMapMap`
 * (a table of marker sets). They are classes because the code changes them in
 * place and shares them by reference.
 */
module Bluemap {
  import opened Wrappers

  /** The key our marker set is stored under on every map. */
  const MarkerSetId := "xclaim_marker_set"

  /** A grid-line point of a traced contour. */
  datatype Point = Point(x: int, y: int)

  /** A two-dimensional vertex of a BlueMap shape. */
  datatype Vector2 = Vector2(x: int, y: int)

  /**
   * A BlueMap shape: either the rectangle `Shape.createRect` builds from two
   * corners, kept opaque, or the polygon a shape builder produced.
   */
  datatype Shape = Rect(x1: int, z1: int, x2: int, z2: int) | Polygon(points: seq<Vector2>)

  /** The claim colour, as the colour function hands it over. */
  datatype Rgb = Rgb(red: nat, green: nat, blue: nat)

  /** The two fixed opacities, 0.2 for the fill and 0.4 for the outline. */
  datatype Opacity = FillOpacity | LineOpacity

  datatype Color = Color(rgb: Rgb, opacity: Opacity)

  /** Whether a marker is an extrude marker or some other kind of BlueMap marker. */
  datatype Kind = Extrude | OtherKind

  /** One claimed chunk. */
  datatype Chunk = Chunk(x: int, z: int)

  /** A world, with the height range the platform reports for it. */
  datatype World = World(uid: nat, minHeight: int, maxHeight: int)

  /** The horizontal part of a claim's outer bounding box. */
  datatype Bounds = Bounds(minX: int, minZ: int, maxX: int, maxZ: int)

  /** What this code reads of a claim. */
  datatype Claim = Claim(token: string, name: string, world: Option<World>, chunks: set<Chunk>, bounds: Bounds)

  /** The chunk bitmap's boundary tracer: chunks and the merge flag in, contours out. */
  type Tracer = (set<Chunk>, bool) -> seq<seq<Point>>

  /** The BlueMap API as this code queries it: each known world's maps, and all maps. */
  datatype Api = Api(worlds: map<nat, seq<BlueMapMap>>, maps: seq<BlueMapMap>)

  class Marker {
    const kind: Kind
    var labelText: string
    var shape: Shape
    var minY: int
    var maxY: int
    var holes: seq<Shape>
    var fillColor: Color
    var lineColor: Color

    constructor (kind: Kind, labelText: string, shape: Shape, minY: int, maxY: int, fillColor: Color, lineColor: Color)
      ensures this.kind == kind && this.labelText == labelText && this.shape == shape
      ensures this.minY == minY && this.maxY == maxY && holes == []
      ensures this.fillColor == fillColor && this.lineColor == lineColor
    {
      this.kind := kind;
      this.labelText := labelText;
      this.shape := shape;
      this.minY := minY;
      this.maxY := maxY;
      this.holes := [];
      this.fillColor := fillColor;
      this.lineColor := lineColor;
    }
  }

  class MarkerSet {
    var labelText: string
    var markers: map<string, Marker>

    constructor (labelText: string)
      ensures this.labelText == labelText && markers == map[]
    {
      this.labelText := labelText;
      markers := map[];
    }
  }

  class BlueMapMap {
    var markerSets: map<string, MarkerSet>
  }

  /** The vertex a shape builder makes of a traced point. */
  function VertexOf(p: Point): Vector2 {
    Vector2(p.x, p.y)
  }

  /** The polygon with one vertex per point, in the points' order. */
  function PolygonOf(points: seq<Point>): (s: Shape)
    ensures s.Polygon? && |s.points| == |points|
    ensures forall i :: 0 <= i < |points| ==> s.points[i] == VertexOf(points[i])
  {
    if points == [] then Polygon([])
    else Polygon([VertexOf(points[0])] + PolygonOf(points[1..]).points)
  }

  /** One polygon per contour, in the contours' order. */
  function ShapesOf(contours: seq<seq<Point>>): (r: seq<Shape>)
    ensures |r| == |contours|
    ensures forall i :: 0 <= i < |contours| ==> r[i] == PolygonOf(contours[i])
  {
    if contours == [] then []
    else [PolygonOf(contours[0])] + ShapesOf(contours[1..])
  }

  /** The table without every entry whose value is `v`; the other entries as they were. */
  function WithoutValue(m: map<string, Marker>, v: Marker): (r: map<string, Marker>)
    ensures v !in r.Values
    ensures forall k :: k in r <==> k in m && m[k] != v
    ensures forall k :: k in r ==> r[k] == m[k]
  {
    map k | k in m && m[k] != v :: m[k]
  }

  /** Removing a marker a second time changes nothing. */
  lemma WithoutValueIdempotent(m: map<string, Marker>, v: Marker)
    ensures WithoutValue(WithoutValue(m, v), v) == WithoutValue(m, v)
  {
  }

  /** `buildShapeFromPoints`: feed every point to a shape builder, in order. */
  method BuildShapeFromPoints(points: seq<Point>) returns (shape: Shape)
    ensures shape == PolygonOf(points)
  {
    var builder: seq<Vector2> := [];
    for i := 0 to |points|
      invariant |builder| == i
      invariant forall k :: 0 <= k < i ==> builder[k] == VertexOf(points[k])
    {
      builder := builder + [VertexOf(points[i])];
    }
    shape := Polygon(builder);
    assert shape.points == PolygonOf(points).points;
  }

  /** The handle on one claim's extrude marker and the marker set that holds it. */
  class BluemapMapMarker {
    const markerSet: MarkerSet
    const marker: Marker

    constructor (markerSet: MarkerSet, marker: Marker)
      requires marker.kind == Extrude
      ensures this.markerSet == markerSet && this.marker == marker
    {
      this.markerSet := markerSet;
      this.marker := marker;
    }

    /**
     * `update`: replace the marker's outline with the claim's first traced
     * contour and its holes with the remaining contours, keeping the vertical
     * extent; leave the marker alone when nothing was traced.
     */
    method Update(claim: Claim, trace: Tracer)
      modifies marker
      ensures var edges := trace(claim.chunks, true);
        if |edges| == 0 then unchanged(marker)
        else
          && marker.shape == PolygonOf(edges[0])
          && marker.minY == old(marker.minY) && marker.maxY == old(marker.maxY)
          && marker.holes == ShapesOf(edges[1..])
          && marker.labelText == old(marker.labelText)
          && marker.fillColor == old(marker.fillColor) && marker.lineColor == old(marker.lineColor)
    {
      var edges := trace(claim.chunks, true);
      if |edges| < 1 {
        return;
      }
      var outline := BuildShapeFromPoints(edges[0]);
      marker.shape, marker.minY, marker.maxY := outline, marker.minY, marker.maxY;

      marker.holes := [];
      var i := 1;
      while i < |edges|
        invariant 1 <= i <= |edges|
        invariant |marker.holes| == i - 1
        invariant forall k :: 0 <= k < i - 1 ==> marker.holes[k] == PolygonOf(edges[k + 1])
        invariant marker.shape == outline
        invariant marker.minY == old(marker.minY) && marker.maxY == old(marker.maxY)
        invariant marker.labelText == old(marker.labelText)
        invariant marker.fillColor == old(marker.fillColor) && marker.lineColor == old(marker.lineColor)
      {
        var hole := BuildShapeFromPoints(edges[i]);
        marker.holes := marker.holes + [hole];
        i := i + 1;
      }
      assert marker.holes == ShapesOf(edges[1..]);
    }

    /**
     * `deleteMarker`: remove, under whatever keys, every entry of the set that
     * holds this very marker; entries holding other markers stay as they are.
     */
    method DeleteMarker()
      modifies markerSet
      ensures markerSet.markers == WithoutValue(old(markerSet.markers), marker)
      ensures markerSet.labelText == old(markerSet.labelText)
    {
      var entries := markerSet.markers;
      var pending := entries.Keys;
      while pending != {}
        invariant pending <= entries.Keys
        invariant forall k :: k in markerSet.markers <==> k in entries && (k in pending || entries[k] != marker)
        invariant forall k :: k in markerSet.markers ==> markerSet.markers[k] == entries[k]
        invariant markerSet.labelText == old(markerSet.labelText)
        decreases pending
      {
        var key :| key in pending;
        if entries[key] == marker {
          markerSet.markers := markerSet.markers - {key};
        }
        pending := pending - {key};
      }
      assert markerSet.markers == WithoutValue(entries, marker);
    }
  }

  /** The maps of the claim's world, when the API knows that world. */
  function WorldMaps(api: Api, claim: Claim): set<BlueMapMap> {
    if claim.world.Some? && claim.world.value.uid in api.worlds
    then set m | m in api.worlds[claim.world.value.uid]
    else {}
  }

  /** The marker-set cache: the static `markerSetMap`, keyed by world UUID. */
  class MarkerSetCache {
    var markerSetMap: map<nat, MarkerSet>

    constructor ()
      ensures markerSetMap == map[]
    {
      markerSetMap := map[];
    }

    /** The cached marker set of the claim's world, if there is one. */
    function CachedSet(claim: Claim): set<MarkerSet>
      reads this
    {
      if claim.world.Some? && claim.world.value.uid in markerSetMap
      then {markerSetMap[claim.world.value.uid]}
      else {}
    }

    /** Whether the claim's token already holds an extrude marker in its world's cached set. */
    predicate HoldsExtrude(claim: Claim)
      reads this, CachedSet(claim)
    {
      && claim.world.Some? && claim.world.value.uid in markerSetMap
      && claim.token in markerSetMap[claim.world.value.uid].markers
      && markerSetMap[claim.world.value.uid].markers[claim.token].kind == Extrude
    }

    /**
     * `getMarkerSet`: the marker set of the claim's world, created, cached and
     * put on every map of that world the first time the world is seen.
     */
    method GetMarkerSet(api: Api, claim: Claim, baseName: string) returns (r: Option<MarkerSet>)
      modifies this, WorldMaps(api, claim)
      ensures r.None? <==>
                claim.world.None? ||
                (claim.world.value.uid !in old(markerSetMap) && claim.world.value.uid !in api.worlds)
      ensures r.None? ==> markerSetMap == old(markerSetMap)
      ensures r.Some? ==> claim.world.Some? && claim.world.value.uid in markerSetMap &&
                          markerSetMap[claim.world.value.uid] == r.value
      // a world seen before: its cached set, and nothing changes
      ensures r.Some? && claim.world.value.uid in old(markerSetMap) ==>
                && r.value == old(markerSetMap[claim.world.value.uid])
                && markerSetMap == old(markerSetMap)
                && unchanged(WorldMaps(api, claim))
      // a new world: a fresh empty set, cached and put on each of the world's maps
      ensures r.Some? && claim.world.value.uid !in old(markerSetMap) ==>
                && fresh(r.value) && r.value.labelText == baseName && r.value.markers == map[]
                && markerSetMap == old(markerSetMap)[claim.world.value.uid := r.value]
                && forall m :: m in api.worlds[claim.world.value.uid] ==>
                     m.markerSets == old(m.markerSets)[MarkerSetId := r.value]
    {
      if claim.world.None? {
        return None;
      }
      var uid := claim.world.value.uid;
      if uid in markerSetMap {
        return Some(markerSetMap[uid]);
      }
      if uid !in api.worlds {
        return None;
      }
      var maps := api.worlds[uid];
      var ms := new MarkerSet(baseName);
      markerSetMap := markerSetMap[uid := ms];
      for i := 0 to |maps|
        invariant forall m :: m in maps[..i] ==> m.markerSets == old(m.markerSets)[MarkerSetId := ms]
        invariant forall m :: m in maps && m !in maps[..i] ==> m.markerSets == old(m.markerSets)
        invariant ms.labelText == baseName && ms.markers == map[]
        invariant markerSetMap == old(markerSetMap)[uid := ms]
      {
        assert maps[..i + 1] == maps[..i] + [maps[i]];
        maps[i].markerSets := maps[i].markerSets[MarkerSetId := ms];
      }
      assert maps[..|maps|] == maps;
      ms.labelText := baseName;
      r := Some(ms);
    }

    /**
     * `getMarker`: the claim's extrude marker in its world's marker set. An
     * extrude marker already under the claim's token is reused as it is; an
     * entry of another kind is replaced by a new marker shaped as the claim's
     * bounding rectangle over the world's full height.
     */
    method GetMarker(api: Api, claim: Claim, baseName: string, claimColor: Claim -> Rgb)
      returns (r: Option<BluemapMapMarker>)
      modifies this, WorldMaps(api, claim), CachedSet(claim)
      ensures r.None? <==>
                claim.world.None? ||
                (claim.world.value.uid !in old(markerSetMap) && claim.world.value.uid !in api.worlds)
      ensures r.None? ==> markerSetMap == old(markerSetMap)
      ensures r.Some? ==>
                && claim.world.Some? && claim.world.value.uid in markerSetMap
                && markerSetMap[claim.world.value.uid] == r.value.markerSet
                && claim.token in r.value.markerSet.markers
                && r.value.markerSet.markers[claim.token] == r.value.marker
                && r.value.marker.kind == Extrude
      // the marker set: as in GetMarkerSet
      ensures r.Some? && claim.world.value.uid in old(markerSetMap) ==>
                && r.value.markerSet == old(markerSetMap[claim.world.value.uid])
                && r.value.markerSet.labelText == old(markerSetMap[claim.world.value.uid].labelText)
                && markerSetMap == old(markerSetMap)
                && unchanged(WorldMaps(api, claim))
      ensures r.Some? && claim.world.value.uid !in old(markerSetMap) ==>
                && fresh(r.value.markerSet) && r.value.markerSet.labelText == baseName
                && markerSetMap == old(markerSetMap)[claim.world.value.uid := r.value.markerSet]
                && forall m :: m in api.worlds[claim.world.value.uid] ==>
                     m.markerSets == old(m.markerSets)[MarkerSetId := r.value.markerSet]
      // reuse: the marker already there, and the set as it was
      ensures r.Some? && old(HoldsExtrude(claim)) ==>
                && r.value.marker == old(markerSetMap[claim.world.value.uid].markers[claim.token])
                && r.value.markerSet.markers == old(markerSetMap[claim.world.value.uid].markers)
      // creation: a new marker under the token, every other entry as it was
      ensures r.Some? && !old(HoldsExtrude(claim)) ==>
                var w := claim.world.value;
                var b := claim.bounds;
                var before := if w.uid in old(markerSetMap) then old(markerSetMap[w.uid].markers) else map[];
                && fresh(r.value.marker)
                && r.value.markerSet.markers == before[claim.token := r.value.marker]
                && r.value.marker.labelText == claim.name
                && r.value.marker.shape == Rect(b.minX, b.minZ, b.maxX, b.maxZ)
                && r.value.marker.minY == w.minHeight && r.value.marker.maxY == w.maxHeight
                && r.value.marker.holes == []
                && r.value.marker.fillColor == Color(claimColor(claim), FillOpacity)
                && r.value.marker.lineColor == Color(claimColor(claim), LineOpacity)
    {
      var found := GetMarkerSet(api, claim, baseName);
      if found.None? {
        return None;
      }
      var ms := found.value;

      var token := claim.token;
      if token in ms.markers {
        var existing := ms.markers[token];
        if existing.kind == Extrude {
          var handle := new BluemapMapMarker(ms, existing);
          return Some(handle);
        } else {
          ms.markers := ms.markers - {token};
        }
      }

      var b := claim.bounds;
      var world := claim.world.value;
      var col := claimColor(claim);
      var marker := new Marker(Extrude, claim.name, Rect(b.minX, b.minZ, b.maxX, b.maxZ),
                               world.minHeight, world.maxHeight,
                               Color(col, FillOpacity), Color(col, LineOpacity));
      ms.markers := ms.markers[token := marker];
      var handle := new BluemapMapMarker(ms, marker);
      r := Some(handle);
    }

    /**
     * Two lookups of the same claim, with nothing in between, give the same
     * marker in the same set: the second finds what the first left there.
     */
    method GetMarkerTwice(api: Api, claim: Claim, baseName: string, claimColor: Claim -> Rgb)
      returns (first: Option<BluemapMapMarker>, second: Option<BluemapMapMarker>)
      modifies this, WorldMaps(api, claim), CachedSet(claim)
      ensures first.None? <==> second.None?
      ensures first.Some? ==>
                first.value.marker == second.value.marker && first.value.markerSet == second.value.markerSet
    {
      first := GetMarker(api, claim, baseName, claimColor);
      second := GetMarker(api, claim, baseName, claimColor);
    }
  }

  /** `cleanup`: take our marker set off every map, leaving the maps' other sets alone. */
  method Cleanup(api: Api)
    modifies set m | m in api.maps
    ensures forall m :: m in api.maps ==> m.markerSets == old(m.markerSets) - {MarkerSetId}
  {
    var maps := api.maps;
    for i := 0 to |maps|
      invariant forall m :: m in maps[..i] ==> m.markerSets == old(m.markerSets) - {MarkerSetId}
      invariant forall m :: m in maps && m !in maps[..i] ==> m.markerSets == old(m.markerSets)
    {
      assert maps[..i + 1] == maps[..i] + [maps[i]];
      maps[i].markerSets := maps[i].markerSets - {MarkerSetId};
    }
    assert maps[..|maps|] == maps;
  }
}
