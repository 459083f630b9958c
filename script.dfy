/**
 * The second version of the sighting map. There is no initial sighting any more: the
 * route always starts at the fixed place the dog went missing and then follows the
 * sightings by date. The form's rules are those of the first version.
 */
module Script {
  import opened Wrappers
  import opened JsNumbers
  import opened DateTimes
  import opened Addresses
  import opened SearchArea
  import OldScript
  import Sorting

  /** `initialLocation`: the pet shop the dog ran away from. */
  const INITIAL_LOCATION: LatLng := (-30.0346, -51.2177)

  /** `{ id, data, descricao, lat, lng, endereco, detalhesEndereco }`. */
  datatype Avistamento = Avistamento(id: int, data: DateTime, descricao: string, lat: real, lng: real,
                                     endereco: Option<string>, detalhesEndereco: OldScript.AddressDetails)

  predicate DistinctIds(list: seq<Avistamento>)
  {
    forall i, j :: 0 <= i < j < |list| ==> list[i].id != list[j].id
  }

  /** `avistamentos.filter((a) => a.id !== id)`. */
  function WithoutId(list: seq<Avistamento>, id: int): (r: seq<Avistamento>)
    ensures |r| <= |list|
    ensures forall a :: a in r <==> a in list && a.id != id
  {
    if list == [] then []
    else if list[0].id == id then WithoutId(list[1..], id)
    else [list[0]] + WithoutId(list[1..], id)
  }

  /** The filter keeps the others in their order: only sightings with that id are dropped. */
  lemma {:induction false} WithoutIdKeepsOrder(list: seq<Avistamento>, id: int)
    ensures (forall i :: 0 <= i < |list| ==> list[i].id != id) ==> WithoutId(list, id) == list
    ensures forall i :: 0 <= i < |WithoutId(list, id)| ==> WithoutId(list, id)[i].id != id
  {
    if list != [] {
      WithoutIdKeepsOrder(list[1..], id);
      if forall i :: 0 <= i < |list| ==> list[i].id != id {
        assert forall i :: 0 <= i < |list[1..]| ==> list[1..][i].id != id by {
          forall i | 0 <= i < |list[1..]| ensures list[1..][i].id != id {
            assert list[1..][i] == list[i + 1];
          }
        }
        assert list == [list[0]] + list[1..];
      }
    }
  }

  lemma {:induction false} WithoutIdDistinct(list: seq<Avistamento>, id: int)
    requires DistinctIds(list)
    ensures DistinctIds(WithoutId(list, id))
  {
    if list != [] {
      WithoutIdDistinct(list[1..], id);
      var rest := WithoutId(list[1..], id);
      if list[0].id != id {
        forall j | 0 < j < |[list[0]] + rest| ensures ([list[0]] + rest)[j].id != list[0].id {
          assert rest[j - 1] in list[1..];
        }
      }
    }
  }

  function DateKey(a: Avistamento): Option<int>
  {
    Some(Timestamp(a.data))
  }

  /** `[...avistamentos].sort((a, b) => new Date(a.data) - new Date(b.data))`. */
  function DateOrder(list: seq<Avistamento>): seq<Avistamento>
  {
    Sorting.SortByKey(list, DateKey)
  }

  /** The sightings by date: the same sightings, earliest first. */
  lemma DateOrderMeaning(list: seq<Avistamento>)
    ensures |DateOrder(list)| == |list| && multiset(DateOrder(list)) == multiset(list)
    ensures Sorting.SortedByKey(DateOrder(list), DateKey)
  {
    assert Sorting.AllKeyed(list, DateKey);
    Sorting.SortIsSorted(list, DateKey);
  }

  /** `pontosRota`: the pet shop, then `[lat, lng]` of each sighting by date. */
  function RoutePoints(list: seq<Avistamento>): (pts: seq<LatLng>)
    ensures |pts| == |list| + 1
    ensures pts[0] == INITIAL_LOCATION
    ensures forall i :: 0 <= i < |list| ==> pts[i + 1] == (DateOrder(list)[i].lat, DateOrder(list)[i].lng)
  {
    var ordered := DateOrder(list);
    [INITIAL_LOCATION] + seq(|ordered|, i requires 0 <= i < |ordered| => (ordered[i].lat, ordered[i].lng))
  }

  function Dates(list: seq<Avistamento>): seq<DateTime>
  {
    seq(|list|, i requires 0 <= i < |list| => list[i].data)
  }

  /** The figures `calcularRota` shows: the route line, the radius, the direction and the distance. */
  datatype RouteSummary = RouteSummary(points: seq<LatLng>, radius: real, direction: string, distance: real)

  /**
   * `calcularRota`: nothing without sightings. The radius is measured from the pet shop to
   * the latest sighting; `dist`, `angleOf` and `now` stand for `map.distance`, the `atan2`
   * angle in degrees and the time value of `new Date()`, in milliseconds.
   */
  method CalcularRota(list: seq<Avistamento>, dist: (LatLng, LatLng) -> real, angleOf: (real, real) -> real, now: int)
    returns (summary: Option<RouteSummary>)
    ensures list == [] <==> summary.None?
    ensures summary.Some? ==>
      var pts := RoutePoints(list);
      summary.value.points == pts
      && summary.value.radius == SearchRadius(|pts|, dist(INITIAL_LOCATION, pts[|pts| - 1]), ElapsedHours(now, Dates(list)))
      && summary.value.direction == GeneralDirection(pts, 3, angleOf)
      && summary.value.distance == PathLength(pts, dist)
  {
    if list == [] {
      return None;
    }
    var pontosRota := RoutePoints(list);
    var raio := SearchRadius(|pontosRota|, dist(pontosRota[0], pontosRota[|pontosRota| - 1]), ElapsedHours(now, Dates(list)));
    var direcao := GeneralDirection(pontosRota, 3, angleOf);
    var distancia := TotalDistance(pontosRota, dist);
    summary := Some(RouteSummary(pontosRota, raio, direcao, distancia));
  }

  /**
   * With the pet shop counted as a point, one sighting already gives a radius from the
   * distance, but the direction needs two sightings.
   */
  lemma RouteFigures(list: seq<Avistamento>, dist: (LatLng, LatLng) -> real, angleOf: (real, real) -> real, now: int)
    requires list != []
    ensures var pts := RoutePoints(list);
      var h := ElapsedHours(now, Dates(list));
      SearchRadius(|pts|, dist(INITIAL_LOCATION, pts[|pts| - 1]), h)
        == BaseRadius(dist(INITIAL_LOCATION, pts[|pts| - 1])) * TimeFactor(h)
      && (GeneralDirection(pts, 3, angleOf) == UNDETERMINED <==> |list| == 1)
  {
    var pts := RoutePoints(list);
    RadiusLadder(|pts|, dist(INITIAL_LOCATION, pts[|pts| - 1]), ElapsedHours(now, Dates(list)));
  }

  /** The sightings of the second map. */
  class SightingLog {
    var avistamentos: seq<Avistamento>

    predicate Valid()
      reads this
    {
      DistinctIds(avistamentos)
    }

    constructor()
      ensures Valid() && avistamentos == []
    {
      avistamentos := [];
    }

    /**
     * The sighting form's submit handler: as in the first version, without the initial
     * flag; an accepted sighting is appended. `now` is the clock reading that becomes the
     * id, taken to have moved on since the last submission.
     */
    method SubmitSighting(data: DateTime, descricao: string, latitude: string, longitude: string, confirmOutside: bool,
                          logradouro: string, numero: string, bairro: string, endereco: string, now: int)
      returns (outcome: OldScript.SubmitOutcome, added: Option<Avistamento>)
      requires Valid()
      requires forall a :: a in avistamentos ==> a.id < now
      modifies this
      ensures Valid()
      ensures ParseFloat(latitude).None? || ParseFloat(longitude).None? ==> outcome == OldScript.InvalidCoordinates
      ensures outcome == OldScript.Declined <==>
        ParseFloat(latitude).Some? && ParseFloat(longitude).Some?
        && OldScript.OutsidePortoAlegre(ParseFloat(latitude).value, ParseFloat(longitude).value) && !confirmOutside
      ensures (ParseFloat(latitude).Some? && ParseFloat(longitude).Some?
               && (!OldScript.OutsidePortoAlegre(ParseFloat(latitude).value, ParseFloat(longitude).value) || confirmOutside))
        ==> outcome == OldScript.Added
      ensures outcome != OldScript.Added ==> avistamentos == old(avistamentos) && added.None?
      ensures outcome == OldScript.Added ==>
        ParseFloat(latitude).Some? && ParseFloat(longitude).Some?
        && added == Some(Avistamento(now, data, descricao, ParseFloat(latitude).value, ParseFloat(longitude).value,
                                     StoredAddress(ComposedAddress(logradouro, numero, bairro), endereco),
                                     OldScript.AddressDetails(logradouro, numero, bairro, "Porto Alegre")))
        && avistamentos == old(avistamentos) + [added.value]
    {
      var lat, lng := ParseFloat(latitude), ParseFloat(longitude);
      if lat.None? || lng.None? {
        return OldScript.InvalidCoordinates, None;
      }
      if OldScript.OutsidePortoAlegre(lat.value, lng.value) && !confirmOutside {
        return OldScript.Declined, None;
      }
      var enderecoCompleto := ComposedAddress(logradouro, numero, bairro);
      var avistamento := Avistamento(now, data, descricao, lat.value, lng.value, StoredAddress(enderecoCompleto, endereco),
                                     OldScript.AddressDetails(logradouro, numero, bairro, "Porto Alegre"));
      assert forall i :: 0 <= i < |avistamentos| ==> avistamentos[i] in avistamentos;
      avistamentos := avistamentos + [avistamento];
      return OldScript.Added, Some(avistamento);
    }

    /** `removerAvistamento`: once confirmed, every sighting with that id goes. */
    method RemoveSighting(id: int, confirmed: bool)
      requires Valid()
      modifies this
      ensures Valid()
      ensures !confirmed ==> avistamentos == old(avistamentos)
      ensures confirmed ==> avistamentos == WithoutId(old(avistamentos), id)
    {
      if !confirmed {
        return;
      }
      WithoutIdDistinct(avistamentos, id);
      avistamentos := WithoutId(avistamentos, id);
    }
  }
}
