/**
 * The import module of the heat-point map: KML and GeoJSON files become layers in one
 * list, each with a colour, a generated id and its file name. File reading, the KML
 * conversion and the layer drawing are outside the model; a layer is a handle.
 */
module ImportModule {
  import opened Wrappers
  import opened Text
  import opened Json

  /** `colors`, used in turn by list length. */
  const COLORS: seq<string> := ["#3388FF", "#33A02C", "#FB9A99", "#E31A1C", "#FF7F00",
                                "#6A3D9A", "#CAB2D6", "#FFFF99", "#B15928", "#1F78B4"]

  /** `fileName.split(".").pop().toLowerCase()`: the text after the last dot, or the whole name without one. */
  function Extension(fileName: string): string
  {
    var parts := Split(fileName, '.');
    ToLower(parts[|parts| - 1])
  }

  /** Splitting at a separator that is followed only by separator-free text leaves that text as the last part. */
  lemma {:induction false} SplitLastPart(a: string, b: string, sep: char)
    requires sep !in b
    ensures var parts := Split(a + [sep] + b, sep);
      |parts| >= 2 && parts[|parts| - 1] == b
  {
    if a == [] {
      assert a + [sep] + b == [sep] + b;
      assert ([sep] + b)[1..] == b;
      SplitPlain(b, sep);
    } else {
      assert (a + [sep] + b)[1..] == a[1..] + [sep] + b;
      SplitLastPart(a[1..], b, sep);
    }
  }

  /** A name ending in `.ext`, with no dot in `ext`, has the extension `ext` in lower case. */
  lemma ExtensionOfName(base: string, ext: string)
    requires '.' !in ext
    ensures Extension(base + "." + ext) == ToLower(ext)
  {
    SplitLastPart(base, ext, '.');
  }

  /** A name without any dot is taken whole as its extension. */
  lemma ExtensionWithoutDot(name: string)
    requires '.' !in name
    ensures Extension(name) == ToLower(name)
  {
    SplitPlain(name, '.');
  }

  datatype Handler = KmlHandler | GeoJsonHandler | Unsupported

  /** The extension picks the reader: `kml`, or `geojson`/`json`; anything else is ignored. */
  function HandlerFor(fileName: string): Handler
  {
    var ext := Extension(fileName);
    if ext == "kml" then KmlHandler
    else if ext == "geojson" || ext == "json" then GeoJsonHandler
    else Unsupported
  }

  /** The reader of a name ending in `.ext` depends only on `ext`, in lower case. */
  lemma HandlerOfName(base: string, ext: string)
    requires '.' !in ext
    ensures HandlerFor(base + "." + ext) == (if ToLower(ext) == "kml" then KmlHandler
                                             else if ToLower(ext) == "geojson" || ToLower(ext) == "json" then GeoJsonHandler
                                             else Unsupported)
  {
    ExtensionOfName(base, ext);
  }

  /** An upper-case `.KML` is read as KML. */
  lemma UpperCaseKml(base: string, ext: string)
    requires ext == "KML"
    ensures HandlerFor(base + "." + ext) == KmlHandler
  {
    HandlerOfName(base, ext);
    ToLowerMeaning(ext);
    assert ToLower(ext) == "kml";
  }

  /** A GeoJSON file: `JSON.parse` fails (`None`), or it gives a value. */
  datatype GeoJsonCheck = Unparsable | Invalid | Accepted(data: JsonValue)

  /**
   * `processGeoJSONFile`'s test: text that does not parse is an error, and so is a value
   * whose `type` or `features` is missing or falsy (a `null` document throws on the
   * member access, which ends in the same error).
   */
  function CheckGeoJson(parsed: Option<JsonValue>): (r: GeoJsonCheck)
    ensures r.Accepted? <==> parsed.Some? && TruthyMember(parsed.value, "type") && TruthyMember(parsed.value, "features")
    ensures r.Accepted? ==> r.data == parsed.value
    ensures r == Unparsable <==> parsed.None?
  {
    if parsed.None? then Unparsable
    else if !TruthyMember(parsed.value, "type") || !TruthyMember(parsed.value, "features") then Invalid
    else Accepted(parsed.value)
  }

  /** A document that is not an object never passes. */
  lemma NonObjectRejected(v: JsonValue)
    requires !v.JObject?
    ensures CheckGeoJson(Some(v)) == Invalid
  {
  }

  /** An entry worth showing: its value is not `null` and not the empty string. */
  predicate Shown(entry: (string, JsonValue))
  {
    entry.1 != JNull && entry.1 != JString("")
  }

  /** The popup's `Object.entries(feature.properties).filter(...)`. */
  function PopupEntries(entries: seq<(string, JsonValue)>): (r: seq<(string, JsonValue)>)
    ensures |r| <= |entries|
  {
    if entries == [] then []
    else
      var init, last := entries[..|entries| - 1], entries[|entries| - 1];
      PopupEntries(init) + (if Shown(last) then [last] else [])
  }

  /** The popup lists exactly the entries worth showing. */
  lemma {:induction false} PopupEntriesMembers(entries: seq<(string, JsonValue)>)
    ensures forall e :: e in PopupEntries(entries) <==> e in entries && Shown(e)
  {
    if entries != [] {
      var init, last := entries[..|entries| - 1], entries[|entries| - 1];
      PopupEntriesMembers(init);
      assert entries == init + [last];
      assert forall e :: e in entries <==> e in init || e == last;
    }
  }

  /** The filter keeps the shown entries in their order: it only drops. */
  lemma {:induction false} PopupEntriesKeepsShown(entries: seq<(string, JsonValue)>)
    requires forall i :: 0 <= i < |entries| ==> Shown(entries[i])
    ensures PopupEntries(entries) == entries
  {
    if entries != [] {
      var init, last := entries[..|entries| - 1], entries[|entries| - 1];
      assert forall i :: 0 <= i < |init| ==> init[i] == entries[i];
      PopupEntriesKeepsShown(init);
      assert Shown(last);
      assert PopupEntries(entries) == PopupEntries(init) + [last];
      assert entries == init + [last];
    }
  }

  /** A feature gets a popup when it has properties and one of them is shown. */
  predicate HasPopup(properties: Option<seq<(string, JsonValue)>>)
  {
    properties.Some? && PopupEntries(properties.value) != []
  }

  lemma PopupOnlyForShownValue(properties: Option<seq<(string, JsonValue)>>)
    ensures HasPopup(properties) <==> properties.Some? && exists e :: e in properties.value && Shown(e)
  {
    if properties.Some? {
      PopupEntriesMembers(properties.value);
    }
    if HasPopup(properties) {
      assert PopupEntries(properties.value)[0] in PopupEntries(properties.value);
    }
    if properties.Some? && (exists e :: e in properties.value && Shown(e)) {
      var e :| e in properties.value && Shown(e);
      assert e in PopupEntries(properties.value);
    }
  }

  /** `layerInfo`: `layer` stands for the Leaflet layer. */
  datatype LayerInfo = LayerInfo(id: string, name: string, layer: int, color: string)

  /** `` `layer-${Date.now()}-${Math.floor(Math.random() * 1000)}` ``, with both readings as inputs. */
  function LayerId(now: int, random: nat): string
  {
    "layer-" + IntToString(now) + "-" + IntToString(random)
  }

  /** `importedLayers.findIndex((info) => info.id === layerId)`. */
  function IndexOfLayer(layers: seq<LayerInfo>, layerId: string): (k: int)
    ensures -1 <= k < |layers|
    ensures k >= 0 ==> layers[k].id == layerId && forall i :: 0 <= i < k ==> layers[i].id != layerId
    ensures k < 0 ==> forall i :: 0 <= i < |layers| ==> layers[i].id != layerId
  {
    if layers == [] then -1
    else if layers[0].id == layerId then 0
    else
      var k := IndexOfLayer(layers[1..], layerId);
      if k < 0 then -1 else k + 1
  }

  datatype SelectOutcome = Ignored | Rejected | Added

  /** `importedLayers`, the list behind the layer panel. */
  class ImportedLayers {
    var importedLayers: seq<LayerInfo>

    constructor()
      ensures importedLayers == []
    {
      importedLayers := [];
    }

    /** `addGeoJSONToMap`: appends the layer with the colour its position picks and a fresh id. */
    method AddGeoJsonToMap(fileName: string, layer: int, now: int, random: nat)
      modifies this
      ensures importedLayers == old(importedLayers) + [LayerInfo(LayerId(now, random), fileName, layer, COLORS[|old(importedLayers)| % 10])]
    {
      var colorIndex := |importedLayers| % |COLORS|;
      var layerColor := COLORS[colorIndex];
      importedLayers := importedLayers + [LayerInfo(LayerId(now, random), fileName, layer, layerColor)];
    }

    /**
     * One selected file: an unsupported extension is ignored, a GeoJSON file that
     * `CheckGeoJson` does not accept is rejected, and otherwise the file becomes a new layer.
     * `parsed` is what `JSON.parse` gives for a GeoJSON file; a KML file is converted as it is.
     */
    method SelectFile(fileName: string, parsed: Option<JsonValue>, layer: int, now: int, random: nat)
      returns (outcome: SelectOutcome)
      modifies this
      ensures outcome == Ignored <==> HandlerFor(fileName) == Unsupported
      ensures outcome == Rejected <==> HandlerFor(fileName) == GeoJsonHandler && !CheckGeoJson(parsed).Accepted?
      ensures outcome != Added ==> importedLayers == old(importedLayers)
      ensures outcome == Added ==>
        importedLayers == old(importedLayers) + [LayerInfo(LayerId(now, random), fileName, layer, COLORS[|old(importedLayers)| % 10])]
    {
      var handler := HandlerFor(fileName);
      if handler == Unsupported {
        return Ignored;
      }
      if handler == GeoJsonHandler && !CheckGeoJson(parsed).Accepted? {
        return Rejected;
      }
      AddGeoJsonToMap(fileName, layer, now, random);
      return Added;
    }

    /** `removeLayer`: an unknown id changes nothing; otherwise the first entry with it is spliced out. */
    method RemoveLayer(layerId: string)
      modifies this
      ensures var k := IndexOfLayer(old(importedLayers), layerId);
        importedLayers == if k < 0 then old(importedLayers) else old(importedLayers)[..k] + old(importedLayers)[k + 1..]
    {
      var layerIndex := IndexOfLayer(importedLayers, layerId);
      if layerIndex == -1 {
        return;
      }
      importedLayers := importedLayers[..layerIndex] + importedLayers[layerIndex + 1..];
    }

    /** `clearAllLayers`. */
    method ClearAllLayers()
      modifies this
      ensures importedLayers == []
    {
      importedLayers := [];
    }
  }

  /**
   * A removal takes out exactly one entry, the first with the id, and the others keep
   * their order; with distinct ids none with that id remains.
   */
  lemma RemovalMeaning(layers: seq<LayerInfo>, layerId: string)
    requires IndexOfLayer(layers, layerId) >= 0
    ensures var k := IndexOfLayer(layers, layerId);
      var after := layers[..k] + layers[k + 1..];
      |after| == |layers| - 1
      && multiset(after) + multiset{layers[k]} == multiset(layers)
      && ((forall i, j :: 0 <= i < j < |layers| ==> layers[i].id != layers[j].id) ==>
            forall i :: 0 <= i < |after| ==> after[i].id != layerId)
  {
    var k := IndexOfLayer(layers, layerId);
    var after := layers[..k] + layers[k + 1..];
    SpliceParts(layers, k);
    if forall i, j :: 0 <= i < j < |layers| ==> layers[i].id != layers[j].id {
      forall i | 0 <= i < |after| ensures after[i].id != layerId {
        if i >= k {
          assert layers[k].id != layers[i + 1].id;
        }
      }
    }
  }

  /** Splicing out position `k` loses that one element and shifts the later ones down by one. */
  lemma SpliceParts<T>(s: seq<T>, k: int)
    requires 0 <= k < |s|
    ensures var after := s[..k] + s[k + 1..];
      |after| == |s| - 1
      && multiset(after) + multiset{s[k]} == multiset(s)
      && (forall i :: 0 <= i < k ==> after[i] == s[i])
      && (forall i :: k <= i < |after| ==> after[i] == s[i + 1])
  {
    assert s == s[..k] + [s[k]] + s[k + 1..];
  }
}
