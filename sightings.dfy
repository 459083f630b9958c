/** The sighting record shared by the form, the spreadsheet import, the filters and storage. */
module Sightings {
  import opened Wrappers
  import opened Text
  import opened JsNumbers
  import opened DateTimes
  import Sorting

  /** `{ id, dateTime, location: [lat, lng], notes, timestamp }`; the timestamp is that of `dateTime`. */
  datatype Sighting = Sighting(id: int, dateTime: DateTime, lat: real, lng: real, notes: string)

  function TimestampKey(s: Sighting): Option<int>
  {
    Some(Timestamp(s.dateTime))
  }

  /** `list.sort((a, b) => a.timestamp - b.timestamp)`. */
  function SortByTimestamp(list: seq<Sighting>): (r: seq<Sighting>)
    ensures multiset(r) == multiset(list)
    ensures Sorting.SortedByKey(r, TimestampKey)
  {
    Sorting.SortIsSorted(list, TimestampKey);
    Sorting.SortByKey(list, TimestampKey)
  }

  predicate SortedByTimestamp(list: seq<Sighting>)
  {
    forall i, j :: 0 <= i < j < |list| ==> Timestamp(list[i].dateTime) <= Timestamp(list[j].dateTime)
  }

  lemma SortedMeaning(list: seq<Sighting>)
    ensures Sorting.SortedByKey(list, TimestampKey) <==> SortedByTimestamp(list)
  {
  }

  /** Removes every record with the given id, keeping the others in order (`list.filter(s => s.id !== id)`). */
  function WithoutId(list: seq<Sighting>, id: int): (r: seq<Sighting>)
    ensures |r| <= |list|
    ensures forall s :: s in r <==> s in list && s.id != id
  {
    if list == [] then []
    else if list[0].id == id then WithoutId(list[1..], id)
    else [list[0]] + WithoutId(list[1..], id)
  }

  /**
   * The `"lat, lng"` text form: exactly two comma-separated parts, each numeric once trimmed,
   * latitude first.
   */
  function LatLngPair(s: string): (r: Option<(real, real)>)
    ensures r.Some? ==> |Split(s, ',')| == 2
  {
    var parts := Split(s, ',');
    if |parts| == 2 then
      var lat, lng := ParseFloat(Trim(parts[0])), ParseFloat(Trim(parts[1]));
      if lat.Some? && lng.Some? then Some((lat.value, lng.value)) else None
    else None
  }

  /** Writing two integers as `lat,lng` and reading the pair back gives latitude then longitude. */
  lemma LatLngPairOfIntegers(lat: int, lng: int)
    ensures LatLngPair(IntToString(lat) + "," + IntToString(lng)) == Some((lat as real, lng as real))
  {
    var a, b := IntToString(lat), IntToString(lng);
    IntToStringChars(lat);
    IntToStringChars(lng);
    SplitTwo(a, b, ',');
    TrimOfNoOuterSpace(a);
    TrimOfNoOuterSpace(b);
    ParseFloatOfIntToString(lat);
    ParseFloatOfIntToString(lng);
  }

  /** A pair of three comma-separated parts, or with a part that is not a number, is rejected. */
  lemma LatLngPairRejects(s: string)
    ensures |Split(s, ',')| != 2 ==> LatLngPair(s) == None
    ensures |Split(s, ',')| == 2 && ParseFloat(Trim(Split(s, ',')[0])).None? ==> LatLngPair(s) == None
    ensures |Split(s, ',')| == 2 && ParseFloat(Trim(Split(s, ',')[1])).None? ==> LatLngPair(s) == None
  {
  }
}
