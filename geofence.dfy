/**
 * The geofence manager of the heat-point map: imported areas ("pontos específicos"),
 * each shown or hidden on its own, inside one layer group that can itself be switched
 * off. The list is saved to and restored from storage as plain records. Layers are
 * handles; which of them the layer group holds is a set.
 */
module Geofence {
  import opened Wrappers
  import opened Text
  import ImportModule

  /** `getRandomColor`'s fifteen colours; `Math.floor(Math.random() * 15)` is an input. */
  const GEOFENCE_COLORS: seq<string> := [
    "#3388FF", "#33A02C", "#FB9A99", "#E31A1C", "#FF7F00", "#6A3D9A", "#CAB2D6", "#FFFF99",
    "#B15928", "#1F78B4", "#FF5733", "#C70039", "#900C3F", "#581845", "#FFC300"
  ]

  /** `geofenceInfo`: `layer` stands for its Leaflet layer. */
  datatype GeofenceInfo = GeofenceInfo(id: string, name: string, layer: int, color: string, kind: string,
                                       rawContent: string, visible: bool)

  /** A stored record; `visible` is `None` when the record has none or a non-boolean one. */
  datatype SavedGeofence = SavedGeofence(id: string, name: string, color: string, kind: string,
                                         rawContent: string, visible: Option<bool>)

  /** `` `geofence-${Date.now()}-${suffix}` ``, the suffix being the random base-36 text. */
  function GeofenceId(now: int, suffix: string): string
  {
    "geofence-" + IntToString(now) + "-" + suffix
  }

  predicate LayersDistinct(gs: seq<GeofenceInfo>)
  {
    forall i, j :: 0 <= i < j < |gs| ==> gs[i].layer != gs[j].layer
  }

  function Layers(gs: seq<GeofenceInfo>): (r: set<int>)
    ensures forall l :: l in r <==> exists i :: 0 <= i < |gs| && gs[i].layer == l
  {
    set i | 0 <= i < |gs| :: gs[i].layer
  }

  /** `importedGeofences.find((g) => g.id === id)`, as a position: -1 when there is none. */
  function IndexOfId(gs: seq<GeofenceInfo>, id: string): (k: int)
    ensures -1 <= k < |gs|
    ensures k >= 0 ==> gs[k].id == id && forall i :: 0 <= i < k ==> gs[i].id != id
    ensures k < 0 ==> forall i :: 0 <= i < |gs| ==> gs[i].id != id
  {
    if gs == [] then -1
    else if gs[0].id == id then 0
    else
      var k := IndexOfId(gs[1..], id);
      if k < 0 then -1 else k + 1
  }

  /** `importedGeofences.filter((g) => g.id !== id)`. */
  function WithoutId(gs: seq<GeofenceInfo>, id: string): (r: seq<GeofenceInfo>)
    ensures |r| <= |gs|
    ensures forall g :: g in r <==> g in gs && g.id != id
  {
    if gs == [] then []
    else if gs[0].id == id then WithoutId(gs[1..], id)
    else [gs[0]] + WithoutId(gs[1..], id)
  }

  /** The layer group after one geofence has been brought in line with its flag. */
  function SyncOne(group: set<int>, g: GeofenceInfo): set<int>
  {
    if g.visible then group + {g.layer} else group - {g.layer}
  }

  /** The layer group after `updateGeofencesVisibility` has walked the list. */
  function Synced(group: set<int>, gs: seq<GeofenceInfo>): set<int>
  {
    if gs == [] then group else SyncOne(Synced(group, gs[..|gs| - 1]), gs[|gs| - 1])
  }

  /**
   * With distinct layers, after the walk a geofence's layer is in the group exactly when it
   * is visible, and every other layer is where it was.
   */
  lemma {:induction false} SyncedMeaning(group: set<int>, gs: seq<GeofenceInfo>)
    requires LayersDistinct(gs)
    ensures forall i :: 0 <= i < |gs| ==> (gs[i].layer in Synced(group, gs) <==> gs[i].visible)
    ensures forall l :: l !in Layers(gs) ==> (l in Synced(group, gs) <==> l in group)
  {
    if gs != [] {
      var init := gs[..|gs| - 1];
      assert LayersDistinct(init);
      SyncedMeaning(group, init);
      assert forall i :: 0 <= i < |init| ==> init[i] == gs[i];
      assert forall l :: l in Layers(init) ==> l in Layers(gs);
      assert forall i :: 0 <= i < |gs| - 1 ==> gs[i].layer != gs[|gs| - 1].layer;
      assert forall l :: l !in Layers(gs) ==> l !in Layers(init) && l != gs[|gs| - 1].layer;
    }
  }

  /** `updateGeofencesVisibility`'s `forEach`. */
  method SyncGroup(group: set<int>, gs: seq<GeofenceInfo>) returns (r: set<int>)
    ensures r == Synced(group, gs)
  {
    r := group;
    var i := 0;
    while i < |gs|
      invariant 0 <= i <= |gs|
      invariant r == Synced(group, gs[..i])
    {
      assert gs[..i + 1][..i] == gs[..i];
      if gs[i].visible {
        if gs[i].layer !in r {
          r := r + {gs[i].layer};
        }
      } else {
        if gs[i].layer in r {
          r := r - {gs[i].layer};
        }
      }
      i := i + 1;
    }
    assert gs[..i] == gs;
  }

  /** The record `saveGeofencesToLocalStorage` writes: the geofence without its layer. */
  function Saved(g: GeofenceInfo): SavedGeofence
  {
    SavedGeofence(g.id, g.name, g.color, g.kind, g.rawContent, Some(g.visible))
  }

  function SavedAll(gs: seq<GeofenceInfo>): (r: seq<SavedGeofence>)
    ensures |r| == |gs|
    ensures forall i :: 0 <= i < |gs| ==> r[i] == Saved(gs[i])
  {
    seq(|gs|, i requires 0 <= i < |gs| => Saved(gs[i]))
  }

  /** A restored geofence: the record with a new layer, visible unless `visible` was `false`. */
  function Restored(s: SavedGeofence, layer: int): (g: GeofenceInfo)
    ensures g.visible <==> s.visible != Some(false)
  {
    GeofenceInfo(s.id, s.name, layer, s.color, s.kind, s.rawContent, s.visible != Some(false))
  }

  /** Saving then restoring with the same layer gives the geofence back. */
  lemma RestoreSaved(g: GeofenceInfo)
    ensures Restored(Saved(g), g.layer) == g
  {
  }

  /**
   * The geofences `loadSavedGeofences` restores: each record whose content can be read
   * again (`readable`; KML content always can) gets its layer from `layers`.
   */
  function RestoredAll(saved: seq<SavedGeofence>, layers: seq<int>, readable: string -> bool): (r: seq<GeofenceInfo>)
    requires |layers| == |saved|
    ensures |r| <= |saved|
  {
    if saved == [] then []
    else
      var n := |saved| - 1;
      RestoredAll(saved[..n], layers[..n], readable)
      + (if saved[n].kind == "kml" || readable(saved[n].rawContent) then [Restored(saved[n], layers[n])] else [])
  }

  /** Every geofence saved, with its own layer and readable content, is restored as it was. */
  lemma {:induction false} RestoreSavedAll(gs: seq<GeofenceInfo>, readable: string -> bool)
    requires forall i :: 0 <= i < |gs| ==> gs[i].kind == "kml" || readable(gs[i].rawContent)
    ensures RestoredAll(SavedAll(gs), seq(|gs|, i requires 0 <= i < |gs| => gs[i].layer), readable) == gs
  {
    if gs != [] {
      var n := |gs| - 1;
      var layers := seq(|gs|, i requires 0 <= i < |gs| => gs[i].layer);
      assert SavedAll(gs)[..n] == SavedAll(gs[..n]);
      assert layers[..n] == seq(n, i requires 0 <= i < n => gs[..n][i].layer);
      RestoreSavedAll(gs[..n], readable);
      RestoreSaved(gs[n]);
      assert gs == gs[..n] + [gs[n]];
    }
  }

  /** The layers, among the restored, that are added to the group at load. */
  function ShownAtLoad(restored: seq<GeofenceInfo>, isActive: bool): set<int>
  {
    set i | 0 <= i < |restored| && isActive && restored[i].visible :: restored[i].layer
  }

  lemma ShownAtLoadSnoc(restored: seq<GeofenceInfo>, g: GeofenceInfo, isActive: bool)
    ensures ShownAtLoad(restored + [g], isActive) == ShownAtLoad(restored, isActive) + (if isActive && g.visible then {g.layer} else {})
  {
    var r := restored + [g];
    assert forall i :: 0 <= i < |restored| ==> r[i] == restored[i];
    assert r[|restored|] == g;
  }

  /** `loadSavedGeofences`' `forEach` over the stored records. */
  method RestoreGeofences(saved: seq<SavedGeofence>, layers: seq<int>, readable: string -> bool, isActive: bool)
    returns (restored: seq<GeofenceInfo>, shown: set<int>)
    requires |layers| == |saved|
    ensures restored == RestoredAll(saved, layers, readable)
    ensures shown == ShownAtLoad(restored, isActive)
  {
    restored, shown := [], {};
    var i := 0;
    while i < |saved|
      invariant 0 <= i <= |saved|
      invariant restored == RestoredAll(saved[..i], layers[..i], readable)
      invariant shown == ShownAtLoad(restored, isActive)
    {
      assert saved[..i + 1][..i] == saved[..i] && layers[..i + 1][..i] == layers[..i];
      var geofence := saved[i];
      if geofence.kind == "kml" || readable(geofence.rawContent) {
        var g := Restored(geofence, layers[i]);
        if isActive && g.visible {
          shown := shown + {g.layer};
        }
        ShownAtLoadSnoc(restored, g, isActive);
        restored := restored + [g];
      }
      i := i + 1;
    }
    assert saved[..i] == saved && layers[..i] == layers;
  }

  /** The manager: the list, the group switch, the layers the group holds, and whether the group is on the map. */
  class GeofenceManager {
    var importedGeofences: seq<GeofenceInfo>
    var isActive: bool
    var inGroup: set<int>
    var groupOnMap: bool

    predicate Valid()
      reads this
    {
      LayersDistinct(importedGeofences)
    }

    /** `initialize` with a map: an empty group on the map, switched on. */
    constructor()
      ensures Valid() && importedGeofences == [] && isActive && inGroup == {} && groupOnMap
    {
      importedGeofences := [];
      isActive := true;
      inGroup := {};
      groupOnMap := true;
    }

    /**
     * `addGeofenceToMap`: a new geofence, visible, named after its file, of the file's
     * extension as its kind, its layer added to the group. `layer` is a new layer.
     */
    method AddGeofenceToMap(name: string, rawContent: string, layer: int, colorPick: nat, now: int, suffix: string)
      returns (g: GeofenceInfo)
      requires Valid() && colorPick < |GEOFENCE_COLORS|
      requires layer !in Layers(importedGeofences)
      modifies this
      ensures Valid()
      ensures g == GeofenceInfo(GeofenceId(now, suffix), name, layer, GEOFENCE_COLORS[colorPick],
                                ImportModule.Extension(name), rawContent, true)
      ensures importedGeofences == old(importedGeofences) + [g]
      ensures inGroup == old(inGroup) + {layer}
      ensures isActive == old(isActive) && groupOnMap == old(groupOnMap)
    {
      g := GeofenceInfo(GeofenceId(now, suffix), name, layer, GEOFENCE_COLORS[colorPick],
                        ImportModule.Extension(name), rawContent, true);
      inGroup := inGroup + {layer};
      importedGeofences := importedGeofences + [g];
    }

    /**
     * The item's visibility button: the first geofence with the id flips `visible`; while
     * the group is switched on its layer joins or leaves the group to match.
     */
    method ToggleItemVisibility(id: string)
      requires Valid()
      modifies this
      ensures Valid()
      ensures var k := IndexOfId(old(importedGeofences), id);
        if k < 0 then importedGeofences == old(importedGeofences) && inGroup == old(inGroup)
        else
          var g := old(importedGeofences)[k];
          importedGeofences == old(importedGeofences)[k := g.(visible := !g.visible)]
          && inGroup == (if !isActive then old(inGroup) else if !g.visible then old(inGroup) + {g.layer} else old(inGroup) - {g.layer})
      ensures isActive == old(isActive) && groupOnMap == old(groupOnMap)
    {
      var k := IndexOfId(importedGeofences, id);
      if k < 0 {
        return;
      }
      var g := importedGeofences[k];
      var flipped := g.(visible := !g.visible);
      importedGeofences := importedGeofences[k := flipped];
      assert forall i :: 0 <= i < |importedGeofences| ==> importedGeofences[i].layer == old(importedGeofences)[i].layer;
      if isActive {
        if flipped.visible {
          inGroup := inGroup + {g.layer};
        } else {
          inGroup := inGroup - {g.layer};
        }
      }
    }

    /** `updateGeofencesVisibility`: each geofence's layer is in the group exactly when it is visible. */
    method UpdateGeofencesVisibility()
      requires Valid()
      modifies this
      ensures Valid()
      ensures inGroup == Synced(old(inGroup), importedGeofences)
      ensures forall i :: 0 <= i < |importedGeofences| ==> (importedGeofences[i].layer in inGroup <==> importedGeofences[i].visible)
      ensures importedGeofences == old(importedGeofences) && isActive == old(isActive) && groupOnMap == old(groupOnMap)
    {
      inGroup := SyncGroup(inGroup, importedGeofences);
      SyncedMeaning(old(inGroup), importedGeofences);
    }

    /**
     * The group switch: `checked` defaults to on. With a map, switching on puts the group
     * on the map and syncs it; switching off takes the group away. No geofence's own flag
     * changes either way.
     */
    method ToggleGeofenceLayer(checked: Option<bool>, mapAvailable: bool)
      requires Valid()
      modifies this
      ensures Valid()
      ensures isActive == (checked != Some(false))
      ensures importedGeofences == old(importedGeofences)
      ensures !mapAvailable ==> inGroup == old(inGroup) && groupOnMap == old(groupOnMap)
      ensures mapAvailable && isActive ==> groupOnMap && inGroup == Synced(old(inGroup), importedGeofences)
      ensures mapAvailable && !isActive ==> !groupOnMap && inGroup == old(inGroup)
    {
      isActive := checked != Some(false);
      if !mapAvailable {
        return;
      }
      if isActive {
        groupOnMap := true;
        UpdateGeofencesVisibility();
      } else {
        groupOnMap := false;
      }
    }

    /** `removeGeofence`: the first geofence's layer leaves the group, and every geofence with the id leaves the list. */
    method RemoveGeofence(id: string)
      requires Valid()
      modifies this
      ensures Valid()
      ensures importedGeofences == WithoutId(old(importedGeofences), id)
      ensures var k := IndexOfId(old(importedGeofences), id);
        inGroup == if k < 0 then old(inGroup) else old(inGroup) - {old(importedGeofences)[k].layer}
      ensures isActive == old(isActive) && groupOnMap == old(groupOnMap)
    {
      var k := IndexOfId(importedGeofences, id);
      if k >= 0 {
        inGroup := inGroup - {importedGeofences[k].layer};
      }
      WithoutIdDistinct(importedGeofences, id);
      importedGeofences := WithoutId(importedGeofences, id);
    }

    /**
     * `loadSavedGeofences`: the readable records are restored after the current list, with
     * new layers; those visible join the group when it is switched on.
     */
    method LoadSavedGeofences(saved: Option<seq<SavedGeofence>>, layers: seq<int>, readable: string -> bool)
      requires Valid()
      requires saved.Some? ==> |layers| == |saved.value|
      requires forall i, j :: 0 <= i < j < |layers| ==> layers[i] != layers[j]
      requires forall i :: 0 <= i < |layers| ==> layers[i] !in Layers(importedGeofences)
      modifies this
      ensures Valid()
      ensures saved.None? ==> importedGeofences == old(importedGeofences) && inGroup == old(inGroup)
      ensures saved.Some? ==>
        var restored := RestoredAll(saved.value, layers, readable);
        importedGeofences == old(importedGeofences) + restored
        && inGroup == old(inGroup) + ShownAtLoad(restored, isActive)
      ensures isActive == old(isActive) && groupOnMap == old(groupOnMap)
    {
      if saved.None? {
        return;
      }
      var restored, shown := RestoreGeofences(saved.value, layers, readable, isActive);
      RestoredLayers(saved.value, layers, readable);
      var before := importedGeofences;
      importedGeofences := importedGeofences + restored;
      inGroup := inGroup + shown;
      forall i, j | 0 <= i < j < |importedGeofences| ensures importedGeofences[i].layer != importedGeofences[j].layer {
        if j >= |before| && i < |before| {
          assert importedGeofences[j] == restored[j - |before|];
          assert before[i].layer in Layers(before);
        } else if i >= |before| {
          assert importedGeofences[i] == restored[i - |before|] && importedGeofences[j] == restored[j - |before|];
        }
      }
    }

    /** `clearAll`: the group and the list are emptied. */
    method ClearAll()
      modifies this
      ensures Valid()
      ensures importedGeofences == [] && inGroup == {}
      ensures isActive == old(isActive) && groupOnMap == old(groupOnMap)
    {
      inGroup := {};
      importedGeofences := [];
    }
  }

  /** Restored geofences keep the order of the records and take distinct layers from distinct positions. */
  lemma {:induction false} RestoredLayers(saved: seq<SavedGeofence>, layers: seq<int>, readable: string -> bool)
    requires |layers| == |saved|
    requires forall i, j :: 0 <= i < j < |layers| ==> layers[i] != layers[j]
    ensures var r := RestoredAll(saved, layers, readable);
      LayersDistinct(r) && forall i :: 0 <= i < |r| ==> r[i].layer in layers
  {
    if saved != [] {
      var n := |saved| - 1;
      RestoredLayers(saved[..n], layers[..n], readable);
      var prev := RestoredAll(saved[..n], layers[..n], readable);
      assert forall i :: 0 <= i < |prev| ==> prev[i].layer in layers[..n];
      assert layers[n] !in layers[..n];
    }
  }

  lemma {:induction false} WithoutIdDistinct(gs: seq<GeofenceInfo>, id: string)
    requires LayersDistinct(gs)
    ensures LayersDistinct(WithoutId(gs, id))
  {
    if gs != [] {
      WithoutIdDistinct(gs[1..], id);
      var rest := WithoutId(gs[1..], id);
      if gs[0].id != id {
        forall j | 0 < j < |[gs[0]] + rest| ensures ([gs[0]] + rest)[j].layer != gs[0].layer {
          assert rest[j - 1] in gs[1..];
        }
      }
    }
  }
}
