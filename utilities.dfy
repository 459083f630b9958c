/** Header lookup for spreadsheets and validation of the sightings kept in browser storage. */
module Utilities {
  import opened Wrappers
  import opened Text
  import opened Json

  /** Header `i` contains candidate name `j` once lower-cased. */
  predicate HeaderMatches(headers: seq<string>, names: seq<string>, i: int, j: int)
    requires 0 <= i < |headers| && 0 <= j < |names|
  {
    Contains(ToLower(headers[i]), names[j])
  }

  /**
   * `findColumn`: candidates are tried in list order; for the first candidate found in any
   * header, the first header that contains it is returned. `None` when no header contains any.
   */
  method FindColumn(headers: seq<string>, possibleNames: seq<string>) returns (r: Option<string>)
    ensures r.None? <==> forall i, j :: 0 <= i < |headers| && 0 <= j < |possibleNames| ==> !HeaderMatches(headers, possibleNames, i, j)
    ensures r.Some? ==> exists i, j :: (0 <= i < |headers| && 0 <= j < |possibleNames| && r.value == headers[i]
                                         && HeaderMatches(headers, possibleNames, i, j)
                                         && (forall i' :: 0 <= i' < i ==> !HeaderMatches(headers, possibleNames, i', j))
                                         && (forall i', j' :: 0 <= i' < |headers| && 0 <= j' < j ==> !HeaderMatches(headers, possibleNames, i', j')))
  {
    var lowerHeaders := seq(|headers|, k requires 0 <= k < |headers| => ToLower(headers[k]));
    var j := 0;
    while j < |possibleNames|
      invariant 0 <= j <= |possibleNames|
      invariant forall i, j' :: 0 <= i < |headers| && 0 <= j' < j ==> !HeaderMatches(headers, possibleNames, i, j')
    {
      var name := possibleNames[j];
      var index := 0;
      while index < |lowerHeaders| && !Contains(lowerHeaders[index], name)
        invariant 0 <= index <= |lowerHeaders|
        invariant forall i :: 0 <= i < index ==> !HeaderMatches(headers, possibleNames, i, j)
      {
        index := index + 1;
      }
      if index < |lowerHeaders| {
        assert HeaderMatches(headers, possibleNames, index, j);
        return Some(headers[index]);
      }
      j := j + 1;
    }
    return None;
  }

  /** What storage holds: nothing (or an empty string), text that is not JSON, or a parsed value. */
  datatype Stored = Missing | Unparsable | Parsed(value: JsonValue)

  /** An item worth loading: an object with own members `lat`, `lng`, `dateTime` and `id`. */
  predicate IsStoredSighting(item: JsonValue)
  {
    Truthy(item) && item.JObject?
    && HasMember(item, "lat") && HasMember(item, "lng") && HasMember(item, "dateTime") && HasMember(item, "id")
  }

  /** The valid items of a stored array, in their original order. */
  function ValidItems(items: seq<JsonValue>): (r: seq<JsonValue>)
    ensures |r| <= |items|
    ensures forall x :: x in r <==> x in items && IsStoredSighting(x)
  {
    if items == [] then []
    else
      var last := items[|items| - 1];
      assert items == items[..|items| - 1] + [last];
      ValidItems(items[..|items| - 1]) + (if IsStoredSighting(last) then [last] else [])
  }

  /** Filtering keeps the original order: it distributes over concatenation. */
  lemma {:induction false} ValidItemsConcat(a: seq<JsonValue>, b: seq<JsonValue>)
    ensures ValidItems(a + b) == ValidItems(a) + ValidItems(b)
    decreases |b|
  {
    if b == [] {
      assert a + b == a;
    } else {
      var b', last := b[..|b| - 1], b[|b| - 1];
      assert a + b == (a + b') + [last] && b == b' + [last];
      ValidItemsConcat(a, b');
      ValidItemsSnoc(a + b', last);
      ValidItemsSnoc(b', last);
    }
  }

  lemma ValidItemsSnoc(items: seq<JsonValue>, x: JsonValue)
    ensures ValidItems(items + [x]) == ValidItems(items) + (if IsStoredSighting(x) then [x] else [])
  {
    assert (items + [x])[..|items|] == items;
  }

  /** `loadData`: [] when nothing is stored, on a parse failure or for a non-array; else the valid items in order. */
  method LoadData(stored: Stored) returns (r: seq<JsonValue>)
    ensures !stored.Parsed? ==> r == []
    ensures stored.Parsed? && !stored.value.JArray? ==> r == []
    ensures stored.Parsed? && stored.value.JArray? ==> r == ValidItems(stored.value.items)
  {
    if !stored.Parsed? {
      return [];
    }
    var parsed := stored.value;
    if !parsed.JArray? {
      return [];
    }
    var items := parsed.items;
    var validSightings := [];
    var i := 0;
    while i < |items|
      invariant 0 <= i <= |items|
      invariant validSightings == ValidItems(items[..i])
    {
      var item := items[i];
      assert items[..i + 1] == items[..i] + [item];
      if IsStoredSighting(item) {
        validSightings := validSightings + [item];
      }
      i := i + 1;
    }
    assert items[..|items|] == items;
    return validSightings;
  }
}
