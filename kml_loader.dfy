/**
 * The KML module: points read straight from a file's placemarks, and the table of loaded
 * KML layers. A removed layer leaves a `null` slot so that the indices the layer list
 * holds stay valid; once every slot is `null` the table starts over empty. XML parsing and
 * the conversion to GeoJSON are outside the model: a file arrives as its placemarks and
 * the geometry types of the converted features.
 */
module KmlLoader {
  import opened Wrappers
  import opened Text
  import opened JsNumbers
  import opened Addresses

  /** A palette entry: the line, fill and point colours of one file. */
  datatype KmlColors = KmlColors(line: string, fill: string, point: string)

  function Uniform(c: string): KmlColors { KmlColors(c, c, c) }

  /** `colorPalette`: ten colours, each used for line, fill and points alike. */
  const COLOR_PALETTE: seq<KmlColors> := [
    Uniform("#3388ff"), Uniform("#ff7800"), Uniform("#9c27b0"), Uniform("#4caf50"), Uniform("#e91e63"),
    Uniform("#ffc107"), Uniform("#795548"), Uniform("#00bcd4"), Uniform("#f44336"), Uniform("#607d8b")
  ]

  /**
   * A `Placemark` element: the text of its `name` and `description` (empty when missing),
   * and the text of the `coordinates` inside its `Point`, when it has one.
   */
  datatype Placemark = Placemark(name: string, description: string, coordinates: Option<string>)

  /** An extracted point: `coordinates` is `[lng, lat]`, as in KML and GeoJSON. */
  datatype KmlPoint = KmlPoint(coordinates: (real, real), name: string, description: string)

  /**
   * The point a placemark yields: its trimmed coordinate text split at commas needs at
   * least two parts, longitude then latitude, both numeric; the rest (altitude) is ignored.
   */
  function PointOf(p: Placemark): Option<KmlPoint>
  {
    if p.coordinates.None? then None
    else
      var coords := Split(Trim(p.coordinates.value), ',');
      if |coords| < 2 then None
      else
        var lng, lat := ParseFloat(coords[0]), ParseFloat(coords[1]);
        if lng.None? || lat.None? then None
        else Some(KmlPoint((lng.value, lat.value), Trim(p.name), Trim(p.description)))
  }

  /** A placemark whose coordinates read `lng,lat[,alt]` gives the point `[lng, lat]` with its trimmed name and description. */
  lemma PointOfCoordinates(p: Placemark, lngText: string, latText: string, alt: string, lng: real, lat: real)
    requires p.coordinates.Some?
    requires Trim(p.coordinates.value) == lngText + [','] + latText + [','] + alt
    requires ',' !in lngText && ',' !in latText && ',' !in alt
    requires ParseFloat(lngText) == Some(lng) && ParseFloat(latText) == Some(lat)
    ensures PointOf(p) == Some(KmlPoint((lng, lat), Trim(p.name), Trim(p.description)))
  {
    SplitThree(lngText, latText, alt, ',');
  }

  /** Coordinates with a single part give no point. */
  lemma NoPointFromOnePart(p: Placemark)
    requires p.coordinates.Some? && ',' !in Trim(p.coordinates.value)
    ensures PointOf(p).None?
  {
    SplitPlain(Trim(p.coordinates.value), ',');
  }

  /** The values of the present options, in order. */
  function Found(opts: seq<Option<KmlPoint>>): (r: seq<KmlPoint>)
    ensures |r| <= |opts|
    ensures forall q :: q in r <==> Some(q) in opts
  {
    if opts == [] then []
    else
      var init, last := opts[..|opts| - 1], opts[|opts| - 1];
      assert forall o :: o in opts <==> o in init || o == last;
      Found(init) + (if last.Some? then [last.value] else [])
  }

  /** What each placemark yields, in document order. */
  function PointsOf(placemarks: seq<Placemark>): (r: seq<Option<KmlPoint>>)
    ensures |r| == |placemarks|
    ensures forall i :: 0 <= i < |placemarks| ==> r[i] == PointOf(placemarks[i])
  {
    seq(|placemarks|, i requires 0 <= i < |placemarks| => PointOf(placemarks[i]))
  }

  /** The points of all placemarks, in document order. */
  function ExtractedPoints(placemarks: seq<Placemark>): (points: seq<KmlPoint>)
  {
    Found(PointsOf(placemarks))
  }

  /** Every extracted point is what some placemark yields, and every point a placemark yields is extracted. */
  lemma ExtractedPointsMeaning(placemarks: seq<Placemark>)
    ensures |ExtractedPoints(placemarks)| <= |placemarks|
    ensures forall q :: q in ExtractedPoints(placemarks) <==> exists i :: 0 <= i < |placemarks| && PointOf(placemarks[i]) == Some(q)
  {
    var opts := PointsOf(placemarks);
    forall q ensures Some(q) in opts <==> exists i :: 0 <= i < |placemarks| && PointOf(placemarks[i]) == Some(q) {
      if Some(q) in opts {
        var i :| 0 <= i < |opts| && opts[i] == Some(q);
        assert PointOf(placemarks[i]) == Some(q);
      }
    }
  }

  lemma ExtractedPointsSnoc(placemarks: seq<Placemark>, p: Placemark)
    ensures ExtractedPoints(placemarks + [p]) == ExtractedPoints(placemarks) + (if PointOf(p).Some? then [PointOf(p).value] else [])
  {
    var opts := PointsOf(placemarks + [p]);
    assert opts[..|opts| - 1] == PointsOf(placemarks);
  }

  /** `extractPointsFromKml`: walks the placemarks, pushing each point found. */
  method ExtractPointsFromKml(placemarks: seq<Placemark>) returns (points: seq<KmlPoint>)
    ensures points == ExtractedPoints(placemarks)
  {
    points := [];
    var i := 0;
    while i < |placemarks|
      invariant 0 <= i <= |placemarks|
      invariant points == ExtractedPoints(placemarks[..i])
    {
      ExtractedPointsSnoc(placemarks[..i], placemarks[i]);
      assert placemarks[..i + 1] == placemarks[..i] + [placemarks[i]];
      var point := PointOf(placemarks[i]);
      if point.Some? {
        points := points + [point.value];
      }
      i := i + 1;
    }
    assert placemarks[..i] == placemarks;
  }

  /** The geometry types of the converted features, followed by a `Point` feature per extracted point. */
  function MergedFeatures(converted: seq<Option<string>>, points: seq<KmlPoint>): (r: seq<Option<string>>)
    ensures |r| == |converted| + |points|
    ensures r[..|converted|] == converted
    ensures forall i :: |converted| <= i < |r| ==> r[i] == Some("Point")
  {
    converted + seq(|points|, i => Some("Point"))
  }

  /** `Array.from(new Set(types))`: each type present, once, in order of first appearance. */
  function DistinctTypes(features: seq<Option<string>>): (r: seq<string>)
    ensures forall i, j :: 0 <= i < j < |r| ==> r[i] != r[j]
    ensures forall t :: t in r <==> Some(t) in features
  {
    if features == [] then []
    else
      var init, last := features[..|features| - 1], features[|features| - 1];
      var seen := DistinctTypes(init);
      assert forall f :: f in features <==> f in init || f == last;
      if last.Some? && last.value !in seen then seen + [last.value] else seen
  }

  /** The `forEach` that adds each feature's geometry type to a `Set`. */
  method GeometryTypesOf(features: seq<Option<string>>) returns (types: seq<string>)
    ensures types == DistinctTypes(features)
  {
    types := [];
    var i := 0;
    while i < |features|
      invariant 0 <= i <= |features|
      invariant types == DistinctTypes(features[..i])
    {
      assert features[..i + 1][..i] == features[..i];
      if features[i].Some? && features[i].value !in types {
        types := types + [features[i].value];
      }
      i := i + 1;
    }
    assert features[..i] == features;
  }

  /** The Portuguese name of a geometry type; unknown types keep their own name. */
  function TypeLabel(t: string): string
  {
    if t == "Point" then "Ponto"
    else if t == "LineString" then "Linha"
    else if t == "Polygon" then "Polígono"
    else if t == "MultiPoint" then "Multi-Ponto"
    else if t == "MultiLineString" then "Multi-Linha"
    else if t == "MultiPolygon" then "Multi-Polígono"
    else t
  }

  /** The name shown in the layer list: the file name, with its geometry types in parentheses. */
  function FriendlyName(fileName: string, types: seq<string>, points: seq<KmlPoint>): string
  {
    if |types| > 0 then fileName + " (" + JoinWith(seq(|types|, i requires 0 <= i < |types| => TypeLabel(types[i])), ", ") + ")"
    else if |points| > 0 then fileName + " (Ponto)"
    else fileName
  }

  /**
   * Extracted points are merged in as `Point` features before the types are collected, so
   * with any point the types include `Point`: the `" (Ponto)"` fallback of the name, and
   * the manual drawing of points, are never reached.
   */
  lemma PointTypeAlwaysPresent(converted: seq<Option<string>>, points: seq<KmlPoint>)
    requires points != []
    ensures "Point" in DistinctTypes(MergedFeatures(converted, points))
    ensures var types := DistinctTypes(MergedFeatures(converted, points));
      forall name :: FriendlyName(name, types, points) == FriendlyName(name, types, [])
  {
    var merged := MergedFeatures(converted, points);
    assert merged[|converted|] == Some("Point");
  }

  /** `file.name.toLowerCase().endsWith(".kml")`. */
  predicate IsKmlFileName(name: string)
  {
    EndsWith(ToLower(name), ".kml")
  }

  /**
   * A loaded file. `layer` stands for its Leaflet layer and `onMap` for whether the map
   * currently holds it.
   */
  datatype KmlLayer = KmlLayer(name: string, fileName: string, layer: int, colors: KmlColors,
                               types: seq<string>, points: seq<KmlPoint>, onMap: bool)

  datatype LoadOutcome = NotKml | NoMap | ParseError | NoFeatures | Loaded(index: nat)

  /** Every slot is a tombstone. */
  predicate AllRemoved(slots: seq<Option<KmlLayer>>)
  {
    forall i :: 0 <= i < |slots| ==> slots[i].None?
  }

  /** `kmlLayers`: the table of loaded files, with `None` for the `null` slot of a removed one. */
  class KmlLayerTable {
    var kmlLayers: seq<Option<KmlLayer>>

    /** A non-empty table holds a layer, and each layer keeps the colour of the slot it was added at. */
    predicate Valid()
      reads this
    {
      (kmlLayers != [] ==> !AllRemoved(kmlLayers))
      && forall i :: 0 <= i < |kmlLayers| && kmlLayers[i].Some? ==> kmlLayers[i].value.colors == COLOR_PALETTE[i % 10]
    }

    constructor()
      ensures Valid() && kmlLayers == []
    {
      kmlLayers := [];
    }

    /**
     * A selected file: rejected unless its name ends in `.kml`, or when there is no map,
     * the XML did not parse, or it has no features once the extracted points are merged
     * in; otherwise appended at the next index with that index's palette colour.
     */
    method LoadKml(fileName: string, mapAvailable: bool, parsed: bool, placemarks: seq<Placemark>,
                   converted: seq<Option<string>>, layer: int)
      returns (outcome: LoadOutcome)
      requires Valid()
      modifies this
      ensures Valid()
      ensures !IsKmlFileName(fileName) ==> outcome == NotKml
      ensures IsKmlFileName(fileName) && !mapAvailable ==> outcome == NoMap
      ensures IsKmlFileName(fileName) && mapAvailable && !parsed ==> outcome == ParseError
      ensures outcome == NoFeatures <==>
        IsKmlFileName(fileName) && mapAvailable && parsed && converted == [] && ExtractedPoints(placemarks) == []
      ensures !outcome.Loaded? ==> kmlLayers == old(kmlLayers)
      ensures outcome.Loaded? ==>
        var points := ExtractedPoints(placemarks);
        var types := DistinctTypes(MergedFeatures(converted, points));
        outcome.index == |old(kmlLayers)|
        && kmlLayers == old(kmlLayers) + [Some(KmlLayer(FriendlyName(fileName, types, points), fileName, layer,
                                                        COLOR_PALETTE[|old(kmlLayers)| % 10], types, points, true))]
    {
      if !IsKmlFileName(fileName) {
        return NotKml;
      }
      if !mapAvailable {
        return NoMap;
      }
      if !parsed {
        return ParseError;
      }
      var points := ExtractPointsFromKml(placemarks);
      var features := MergedFeatures(converted, points);
      if |features| == 0 {
        return NoFeatures;
      }
      var colors := COLOR_PALETTE[|kmlLayers| % 10];
      var types := GeometryTypesOf(features);
      var friendlyName := FriendlyName(fileName, types, points);
      var kmlIndex := |kmlLayers|;
      kmlLayers := kmlLayers + [Some(KmlLayer(friendlyName, fileName, layer, colors, types, points, true))];
      assert kmlLayers[kmlIndex].Some?;
      return Loaded(kmlIndex);
    }

    /** `toggleKmlLayerVisibility`: out of range, a removed slot or no map changes nothing; otherwise that layer leaves or rejoins the map. */
    method ToggleVisibility(index: int, mapAvailable: bool)
      requires Valid()
      modifies this
      ensures Valid()
      ensures index < 0 || index >= |old(kmlLayers)| || old(kmlLayers)[index].None? || !mapAvailable ==>
        kmlLayers == old(kmlLayers)
      ensures 0 <= index < |old(kmlLayers)| && old(kmlLayers)[index].Some? && mapAvailable ==>
        var l := old(kmlLayers)[index].value;
        kmlLayers == old(kmlLayers)[index := Some(l.(onMap := !l.onMap))]
    {
      if index < 0 || index >= |kmlLayers| {
        return;
      }
      var kmlLayer := kmlLayers[index];
      if kmlLayer.None? || !mapAvailable {
        return;
      }
      kmlLayers := kmlLayers[index := Some(kmlLayer.value.(onMap := !kmlLayer.value.onMap))];
      assert kmlLayers[index].Some?;
    }

    /**
     * `removeKmlLayer`: out of range, a removed slot or no map changes nothing; otherwise
     * the slot becomes a tombstone, and the table is emptied once all slots are.
     */
    method RemoveLayer(index: int, mapAvailable: bool)
      requires Valid()
      modifies this
      ensures Valid()
      ensures index < 0 || index >= |old(kmlLayers)| || old(kmlLayers)[index].None? || !mapAvailable ==>
        kmlLayers == old(kmlLayers)
      ensures 0 <= index < |old(kmlLayers)| && old(kmlLayers)[index].Some? && mapAvailable ==>
        var slots := old(kmlLayers)[index := None];
        kmlLayers == if AllRemoved(slots) then [] else slots
    {
      if index < 0 || index >= |kmlLayers| {
        return;
      }
      if kmlLayers[index].None? || !mapAvailable {
        return;
      }
      kmlLayers := kmlLayers[index := None];
      if AllRemoved(kmlLayers) {
        kmlLayers := [];
      }
    }

    /** `clearAllKmlLayers`: with a map, the table is emptied. */
    method ClearAll(mapAvailable: bool)
      requires Valid()
      modifies this
      ensures Valid()
      ensures kmlLayers == if mapAvailable then [] else old(kmlLayers)
    {
      if mapAvailable {
        kmlLayers := [];
      }
    }
  }

  /** A removal leaves every other slot, and so every other index, as it was. */
  lemma RemoveKeepsOtherSlots(slots: seq<Option<KmlLayer>>, index: nat, j: nat)
    requires index < |slots| && slots[index].Some? && j < |slots| && j != index
    requires slots[j].Some?
    ensures var after := slots[index := None];
      !AllRemoved(after) && after[j] == slots[j]
  {
  }
}
