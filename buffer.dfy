/**
 * The buffer tool of the heat-point map: two clicks on the map, a centre and a point on
 * the rim, make a circular buffer around the centre. The module keeps the drawing state,
 * the clicked points, the list of buffers and the current buffer polygon. Distances,
 * the buffer geometry and its JSON text are inputs; geometries and layers are handles.
 */
module Buffer {
  import opened Wrappers
  import opened Text
  import opened SearchArea

  const BUFFER_COLOR := "#E53935"

  /** `bufferInfo`: `layer` and `geojson` stand for the drawn layer and the buffer geometry. */
  datatype BufferInfo = BufferInfo(id: string, distance: real, centerLat: real, centerLng: real, layer: int,
                                   markers: seq<LatLng>, color: string, geojson: int)

  /** The stored record: the buffer without its layer and markers, its geometry as JSON text. */
  datatype SavedBuffer = SavedBuffer(id: string, distance: real, centerLat: real, centerLng: real, color: string,
                                     geojsonStr: string)

  /** `` `buffer-${Date.now()}-${suffix}` ``, the suffix being the random base-36 text. */
  function BufferId(now: int, suffix: string): string
  {
    "buffer-" + IntToString(now) + "-" + suffix
  }

  predicate DistinctIds(bs: seq<BufferInfo>)
  {
    forall i, j :: 0 <= i < j < |bs| ==> bs[i].id != bs[j].id
  }

  predicate HasId(bs: seq<BufferInfo>, id: string)
  {
    exists i :: 0 <= i < |bs| && bs[i].id == id
  }

  /** `buffersList.find((b) => b.id === bufferId)`, as a position: -1 when there is none. */
  function IndexOfId(bs: seq<BufferInfo>, id: string): (k: int)
    ensures -1 <= k < |bs|
    ensures k >= 0 ==> bs[k].id == id && forall i :: 0 <= i < k ==> bs[i].id != id
    ensures k < 0 ==> !HasId(bs, id)
  {
    if bs == [] then -1
    else if bs[0].id == id then 0
    else
      var k := IndexOfId(bs[1..], id);
      assert k < 0 ==> forall i :: 1 <= i < |bs| ==> bs[i] == bs[1..][i - 1];
      if k < 0 then -1 else k + 1
  }

  /** `buffersList.filter((b) => b.id !== bufferId)`. */
  function WithoutId(bs: seq<BufferInfo>, id: string): (r: seq<BufferInfo>)
    ensures |r| <= |bs|
    ensures forall b :: b in r <==> b in bs && b.id != id
  {
    if bs == [] then []
    else if bs[0].id == id then WithoutId(bs[1..], id)
    else [bs[0]] + WithoutId(bs[1..], id)
  }

  lemma {:induction false} WithoutIdDistinct(bs: seq<BufferInfo>, id: string)
    requires DistinctIds(bs)
    ensures DistinctIds(WithoutId(bs, id))
  {
    if bs != [] {
      WithoutIdDistinct(bs[1..], id);
      var rest := WithoutId(bs[1..], id);
      if bs[0].id != id {
        forall j | 0 < j < |[bs[0]] + rest| ensures ([bs[0]] + rest)[j].id != bs[0].id {
          assert rest[j - 1] in bs[1..];
        }
      }
    }
  }

  /**
   * The buffer `createBuffer` makes from the two clicks: centred on the first, with the
   * distance between them as its radius, and a marker on each.
   */
  function NewBuffer(points: seq<LatLng>, id: string, distanceKm: (LatLng, LatLng) -> real, layer: int, geojson: int): BufferInfo
    requires |points| == 2
  {
    BufferInfo(id, distanceKm(points[0], points[1]), points[0].0, points[0].1, layer, [points[0], points[1]], BUFFER_COLOR, geojson)
  }

  /** `saveBuffersToLocalStorage`'s record; `stringify` stands for `JSON.stringify` of the geometry. */
  function Saved(b: BufferInfo, stringify: int -> string): SavedBuffer
  {
    SavedBuffer(b.id, b.distance, b.centerLat, b.centerLng, b.color, stringify(b.geojson))
  }

  function SavedAll(bs: seq<BufferInfo>, stringify: int -> string): (r: seq<SavedBuffer>)
    ensures |r| == |bs|
    ensures forall i :: 0 <= i < |bs| ==> r[i] == Saved(bs[i], stringify)
  {
    seq(|bs|, i requires 0 <= i < |bs| => Saved(bs[i], stringify))
  }

  /** A restored buffer: the record with a new layer and geometry, the buffer colour and a marker on the centre only. */
  function Restored(s: SavedBuffer, layer: int, geojson: int): BufferInfo
  {
    BufferInfo(s.id, s.distance, s.centerLat, s.centerLng, layer, [(s.centerLat, s.centerLng)], BUFFER_COLOR, geojson)
  }

  /**
   * Saving then restoring keeps id, distance and centre; the rim marker of a drawn buffer
   * is not restored, and the colour becomes the buffer colour whatever was stored.
   */
  lemma RestoreSaved(b: BufferInfo, stringify: int -> string, layer: int, geojson: int)
    requires b.color == BUFFER_COLOR && |b.markers| >= 1 && b.markers[0] == (b.centerLat, b.centerLng)
    ensures var r := Restored(Saved(b, stringify), layer, geojson);
      r == b.(layer := layer, geojson := geojson, markers := [b.markers[0]])
      && (|b.markers| == 2 ==> |r.markers| == 1)
  {
  }

  /** The buffers `loadSavedBuffers` restores: those whose geometry text parses (`parse`), each with its layer from `layers`. */
  function RestoredAll(saved: seq<SavedBuffer>, layers: seq<int>, parse: string -> Option<int>): (r: seq<BufferInfo>)
    requires |layers| == |saved|
    ensures |r| <= |saved|
    ensures forall b :: b in r ==> exists i :: 0 <= i < |saved| && b.id == saved[i].id
  {
    if saved == [] then []
    else
      var n := |saved| - 1;
      var prev := RestoredAll(saved[..n], layers[..n], parse);
      assert forall i :: 0 <= i < n ==> saved[..n][i] == saved[i];
      var g := parse(saved[n].geojsonStr);
      prev + (if g.Some? then [Restored(saved[n], layers[n], g.value)] else [])
  }

  /** When every stored geometry parses, each record comes back, in order, with its own layer and geometry. */
  lemma {:induction false} RestoredAllParsed(saved: seq<SavedBuffer>, layers: seq<int>, parse: string -> Option<int>)
    requires |layers| == |saved|
    requires forall i :: 0 <= i < |saved| ==> parse(saved[i].geojsonStr).Some?
    ensures |RestoredAll(saved, layers, parse)| == |saved|
    ensures forall i :: 0 <= i < |saved| ==>
      RestoredAll(saved, layers, parse)[i] == Restored(saved[i], layers[i], parse(saved[i].geojsonStr).value)
  {
    if saved != [] {
      var n := |saved| - 1;
      var s', l' := saved[..n], layers[..n];
      RestoredAllParsed(s', l', parse);
      var prev := RestoredAll(s', l', parse);
      var last := Restored(saved[n], layers[n], parse(saved[n].geojsonStr).value);
      var r := RestoredAll(saved, layers, parse);
      assert r == prev + [last];
      forall i | 0 <= i < |saved|
        ensures r[i] == Restored(saved[i], layers[i], parse(saved[i].geojsonStr).value)
      {
        if i < n {
          assert r[i] == prev[i];
          var a, la := s'[i], l'[i];
          assert prev[i] == Restored(a, la, parse(a.geojsonStr).value);
          assert a == saved[i] && la == layers[i];
        } else {
          assert i == n && r[i] == last;
        }
      }
    }
  }

  /** `loadSavedBuffers`' `forEach`. */
  method RestoreBuffers(saved: seq<SavedBuffer>, layers: seq<int>, parse: string -> Option<int>) returns (restored: seq<BufferInfo>)
    requires |layers| == |saved|
    ensures restored == RestoredAll(saved, layers, parse)
  {
    restored := [];
    var i := 0;
    while i < |saved|
      invariant 0 <= i <= |saved|
      invariant restored == RestoredAll(saved[..i], layers[..i], parse)
    {
      assert saved[..i + 1][..i] == saved[..i] && layers[..i + 1][..i] == layers[..i];
      var geojson := parse(saved[i].geojsonStr);
      if geojson.Some? {
        restored := restored + [Restored(saved[i], layers[i], geojson.value)];
      }
      i := i + 1;
    }
    assert saved[..i] == saved && layers[..i] == layers;
  }

  /** Restored buffers keep the stored order, so distinct stored ids stay distinct. */
  lemma {:induction false} RestoredDistinct(saved: seq<SavedBuffer>, layers: seq<int>, parse: string -> Option<int>)
    requires |layers| == |saved|
    requires forall i, j :: 0 <= i < j < |saved| ==> saved[i].id != saved[j].id
    ensures DistinctIds(RestoredAll(saved, layers, parse))
  {
    if saved != [] {
      var n := |saved| - 1;
      RestoredDistinct(saved[..n], layers[..n], parse);
      var prev := RestoredAll(saved[..n], layers[..n], parse);
      forall b | b in prev ensures b.id != saved[n].id {
        var i :| 0 <= i < n && b.id == saved[..n][i].id;
      }
    }
  }

  /** The buffer module's state. */
  class BufferModule {
    var isDrawing: bool
    var points: seq<LatLng>
    var buffersList: seq<BufferInfo>
    var bufferPolygon: Option<int>
    var layerOnMap: bool

    /** Ids are distinct, and the current polygon is the geometry of a listed buffer. */
    predicate Valid()
      reads this
    {
      DistinctIds(buffersList)
      && (bufferPolygon.Some? ==> exists i :: 0 <= i < |buffersList| && buffersList[i].geojson == bufferPolygon.value)
    }

    /** `initialize` with a map, before stored buffers are loaded. */
    constructor()
      ensures Valid() && !isDrawing && points == [] && buffersList == [] && bufferPolygon.None? && layerOnMap
    {
      isDrawing := false;
      points := [];
      buffersList := [];
      bufferPolygon := None;
      layerOnMap := true;
    }

    /** `startDrawing`: ignored while drawing or without a map; otherwise drawing starts with no points. */
    method StartDrawing(mapAvailable: bool)
      requires Valid()
      modifies this
      ensures Valid()
      ensures old(isDrawing) || !mapAvailable ==> isDrawing == old(isDrawing) && points == old(points)
      ensures !old(isDrawing) && mapAvailable ==> isDrawing && points == []
      ensures buffersList == old(buffersList) && bufferPolygon == old(bufferPolygon) && layerOnMap == old(layerOnMap)
    {
      if isDrawing || !mapAvailable {
        return;
      }
      isDrawing := true;
      points := [];
    }

    /**
     * `createBuffer`: nothing unless given exactly two points; otherwise the new buffer is
     * listed and its geometry becomes the current polygon.
     */
    method CreateBuffer(pts: seq<LatLng>, id: string, distanceKm: (LatLng, LatLng) -> real, layer: int, geojson: int)
      requires Valid() && !HasId(buffersList, id)
      modifies this
      ensures Valid()
      ensures |pts| != 2 ==> buffersList == old(buffersList) && bufferPolygon == old(bufferPolygon)
      ensures |pts| == 2 ==>
        buffersList == old(buffersList) + [NewBuffer(pts, id, distanceKm, layer, geojson)] && bufferPolygon == Some(geojson)
      ensures isDrawing == old(isDrawing) && points == old(points) && layerOnMap == old(layerOnMap)
    {
      if |pts| != 2 {
        return;
      }
      var bufferInfo := NewBuffer(pts, id, distanceKm, layer, geojson);
      bufferPolygon := Some(geojson);
      buffersList := buffersList + [bufferInfo];
      assert buffersList[|buffersList| - 1].geojson == geojson;
    }

    /**
     * `handleMapClick` followed, on the second point, by `finishDrawing`: ignored when not
     * drawing; the first point waits for a second; the second ends the drawing (when the
     * map is there) and makes the buffer. `now` and `suffix` make the new buffer's id.
     */
    method HandleMapClick(p: LatLng, mapAvailable: bool, now: int, suffix: string,
                          distanceKm: (LatLng, LatLng) -> real, layer: int, geojson: int)
      requires Valid() && !HasId(buffersList, BufferId(now, suffix))
      modifies this
      ensures Valid()
      ensures !old(isDrawing) ==>
        !isDrawing && points == old(points) && buffersList == old(buffersList) && bufferPolygon == old(bufferPolygon)
      ensures old(isDrawing) ==> points == old(points) + [p]
      ensures old(isDrawing) && (|points| != 2 || !mapAvailable) ==>
        isDrawing && buffersList == old(buffersList) && bufferPolygon == old(bufferPolygon)
      ensures old(isDrawing) && |points| == 2 && mapAvailable ==>
        !isDrawing
        && buffersList == old(buffersList) + [NewBuffer(points, BufferId(now, suffix), distanceKm, layer, geojson)]
        && bufferPolygon == Some(geojson)
      ensures layerOnMap == old(layerOnMap)
    {
      if !isDrawing {
        return;
      }
      points := points + [p];
      if |points| == 2 && mapAvailable {
        isDrawing := false;
        CreateBuffer(points, BufferId(now, suffix), distanceKm, layer, geojson);
      }
    }

    /** `cancelDrawing`: ignored when not drawing; otherwise drawing stops and the points are dropped. */
    method CancelDrawing()
      requires Valid()
      modifies this
      ensures Valid()
      ensures !isDrawing
      ensures points == if old(isDrawing) then [] else old(points)
      ensures buffersList == old(buffersList) && bufferPolygon == old(bufferPolygon) && layerOnMap == old(layerOnMap)
    {
      if !isDrawing {
        return;
      }
      isDrawing := false;
      points := [];
    }

    /**
     * `removeBuffer`: an unknown id changes nothing; otherwise the buffer goes, and the
     * current polygon is cleared when it was that buffer's.
     */
    method RemoveBuffer(bufferId: string)
      requires Valid()
      modifies this
      ensures Valid()
      ensures var k := IndexOfId(old(buffersList), bufferId);
        if k < 0 then buffersList == old(buffersList) && bufferPolygon == old(bufferPolygon)
        else
          buffersList == WithoutId(old(buffersList), bufferId)
          && bufferPolygon == (if old(bufferPolygon) == Some(old(buffersList)[k].geojson) then None else old(bufferPolygon))
      ensures !HasId(buffersList, bufferId)
      ensures isDrawing == old(isDrawing) && points == old(points) && layerOnMap == old(layerOnMap)
    {
      var k := IndexOfId(buffersList, bufferId);
      if k < 0 {
        return;
      }
      var bufferToRemove := buffersList[k];
      var before := buffersList;
      WithoutIdDistinct(buffersList, bufferId);
      buffersList := WithoutId(buffersList, bufferId);
      if bufferPolygon == Some(bufferToRemove.geojson) {
        bufferPolygon := None;
      } else if bufferPolygon.Some? {
        var i :| 0 <= i < |before| && before[i].geojson == bufferPolygon.value;
        assert before[i].id != bufferId;
        assert before[i] in buffersList;
      }
      assert forall b :: b in buffersList ==> b.id != bufferId;
      assert forall i :: 0 <= i < |buffersList| ==> buffersList[i] in buffersList;
    }

    /** `clearBuffers`: no buffers and no current polygon. */
    method ClearBuffers()
      modifies this
      ensures Valid()
      ensures buffersList == [] && bufferPolygon.None?
      ensures isDrawing == old(isDrawing) && points == old(points) && layerOnMap == old(layerOnMap)
    {
      buffersList := [];
      bufferPolygon := None;
    }

    /** `toggleBufferLayer`: with a map, the layer is shown unless `checked` is `false`. */
    method ToggleBufferLayer(checked: Option<bool>, mapAvailable: bool)
      requires Valid()
      modifies this
      ensures Valid()
      ensures layerOnMap == if mapAvailable then checked != Some(false) else old(layerOnMap)
      ensures isDrawing == old(isDrawing) && points == old(points)
      ensures buffersList == old(buffersList) && bufferPolygon == old(bufferPolygon)
    {
      if mapAvailable {
        layerOnMap := checked != Some(false);
      }
    }

    /** `loadSavedBuffers`: the stored buffers whose geometry parses are appended; the current polygon stays. */
    method LoadSavedBuffers(saved: Option<seq<SavedBuffer>>, layers: seq<int>, parse: string -> Option<int>)
      requires Valid()
      requires saved.Some? ==> |layers| == |saved.value|
      requires saved.Some? ==> forall i, j :: 0 <= i < j < |saved.value| ==> saved.value[i].id != saved.value[j].id
      requires saved.Some? ==> forall i :: 0 <= i < |saved.value| ==> !HasId(buffersList, saved.value[i].id)
      modifies this
      ensures Valid()
      ensures buffersList == if saved.None? then old(buffersList) else old(buffersList) + RestoredAll(saved.value, layers, parse)
      ensures isDrawing == old(isDrawing) && points == old(points)
      ensures bufferPolygon == old(bufferPolygon) && layerOnMap == old(layerOnMap)
    {
      if saved.None? {
        return;
      }
      var restored := RestoreBuffers(saved.value, layers, parse);
      RestoredDistinct(saved.value, layers, parse);
      var before := buffersList;
      buffersList := buffersList + restored;
      forall i, j | 0 <= i < j < |buffersList| ensures buffersList[i].id != buffersList[j].id {
        if i < |before| && j >= |before| {
          assert buffersList[j] == restored[j - |before|];
          assert restored[j - |before|] in restored;
          assert buffersList[i] == before[i];
        } else if i >= |before| {
          assert buffersList[i] == restored[i - |before|] && buffersList[j] == restored[j - |before|];
        }
      }
      if bufferPolygon.Some? {
        var i :| 0 <= i < |before| && before[i].geojson == bufferPolygon.value;
        assert buffersList[i] == before[i];
      }
    }
  }

  /** Two clicks from a fresh start make exactly one buffer, centred on the first click, and end the drawing. */
  method TwoClicksMakeOneBuffer(p1: LatLng, p2: LatLng, distanceKm: (LatLng, LatLng) -> real, layer: int, geojson: int)
    returns (m: BufferModule)
    ensures fresh(m) && m.Valid() && !m.isDrawing
    ensures m.buffersList == [BufferInfo(BufferId(0, "a"), distanceKm(p1, p2), p1.0, p1.1, layer, [p1, p2], BUFFER_COLOR, geojson)]
    ensures m.bufferPolygon == Some(geojson)
  {
    m := new BufferModule();
    m.StartDrawing(true);
    m.HandleMapClick(p1, true, 0, "a", distanceKm, layer, geojson);
    assert m.points == [p1] && m.isDrawing;
    m.HandleMapClick(p2, true, 0, "a", distanceKm, layer, geojson);
  }
}
