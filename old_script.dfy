/**
 * The first version of the sighting map. Sightings are kept in submission order and
 * exactly one of them, while there are any, is the initial one: the place the dog went
 * missing. The route starts there and then follows the others by date.
 */
module OldScript {
  import opened Wrappers
  import opened JsNumbers
  import opened DateTimes
  import opened Addresses
  import opened SearchArea
  import Sorting

  /** The description that marks a new sighting as the initial one. */
  const INITIAL_DESCRIPTION := "Local de desaparecimento do cão"

  datatype AddressDetails = AddressDetails(logradouro: string, numero: string, bairro: string, cidade: string)

  /** `{ id, data, descricao, lat, lng, endereco, detalhesEndereco, isInicial }`. */
  datatype Avistamento = Avistamento(id: int, data: DateTime, descricao: string, lat: real, lng: real,
                                     endereco: Option<string>, detalhesEndereco: AddressDetails, isInicial: bool)

  datatype SubmitOutcome = InvalidCoordinates | Declined | Added

  /** The box the form accepts without asking. */
  predicate OutsidePortoAlegre(lat: real, lng: real)
  {
    lat < -30.2 || lat > -29.9 || lng < -51.3 || lng > -51.0
  }

  /** How many sightings carry the initial flag. */
  function InitialCount(list: seq<Avistamento>): nat
  {
    if list == [] then 0 else (if list[0].isInicial then 1 else 0) + InitialCount(list[1..])
  }

  /** While there are sightings, exactly one is the initial one. */
  predicate OneInitial(list: seq<Avistamento>)
  {
    list != [] ==> InitialCount(list) == 1
  }

  predicate DistinctIds(list: seq<Avistamento>)
  {
    forall i, j :: 0 <= i < j < |list| ==> list[i].id != list[j].id
  }

  /** Every sighting with its initial flag cleared. */
  function WithoutInitial(list: seq<Avistamento>): (r: seq<Avistamento>)
    ensures |r| == |list|
    ensures forall i :: 0 <= i < |list| ==> r[i] == list[i].(isInicial := false)
  {
    seq(|list|, i requires 0 <= i < |list| => list[i].(isInicial := false))
  }

  /** `avistamentos.forEach((a) => (a.isInicial = false))`. */
  method ClearInitialFlags(list: seq<Avistamento>) returns (r: seq<Avistamento>)
    ensures r == WithoutInitial(list)
  {
    r := list;
    var i := 0;
    while i < |r|
      invariant 0 <= i <= |r| == |list|
      invariant forall j :: 0 <= j < i ==> r[j] == list[j].(isInicial := false)
      invariant forall j :: i <= j < |list| ==> r[j] == list[j]
    {
      r := r[i := r[i].(isInicial := false)];
      i := i + 1;
    }
  }

  /** `avistamentos.filter((a) => a.id !== id)`. */
  function WithoutId(list: seq<Avistamento>, id: int): (r: seq<Avistamento>)
    ensures |r| <= |list|
    ensures forall a :: a in r <==> a in list && a.id != id
  {
    if list == [] then []
    else if list[0].id == id then WithoutId(list[1..], id)
    else [list[0]] + WithoutId(list[1..], id)
  }

  /** `avistamentos.find((a) => a.id === id)`, as a position: -1 when there is none. */
  function IndexOfId(list: seq<Avistamento>, id: int): (k: int)
    ensures -1 <= k < |list|
    ensures k >= 0 ==> list[k].id == id
    ensures k < 0 ==> forall i :: 0 <= i < |list| ==> list[i].id != id
  {
    if list == [] then -1
    else if list[0].id == id then 0
    else
      var k := IndexOfId(list[1..], id);
      if k < 0 then -1 else k + 1
  }

  lemma {:induction false} InitialCountAppend(list: seq<Avistamento>, x: Avistamento)
    ensures InitialCount(list + [x]) == InitialCount(list) + (if x.isInicial then 1 else 0)
  {
    if list != [] {
      assert (list + [x])[1..] == list[1..] + [x];
      InitialCountAppend(list[1..], x);
    }
  }

  lemma {:induction false} WithoutInitialCount(list: seq<Avistamento>)
    ensures InitialCount(WithoutInitial(list)) == 0
  {
    if list != [] {
      assert WithoutInitial(list)[1..] == WithoutInitial(list[1..]);
      WithoutInitialCount(list[1..]);
    }
  }

  /** With distinct ids, removing an id removes at most the one sighting found under it. */
  lemma {:induction false} RemoveCount(list: seq<Avistamento>, id: int)
    requires DistinctIds(list)
    ensures var k := IndexOfId(list, id);
      InitialCount(WithoutId(list, id)) + (if k >= 0 && list[k].isInicial then 1 else 0) == InitialCount(list)
  {
    if list != [] {
      RemoveCount(list[1..], id);
      if list[0].id == id {
        assert forall i :: 0 <= i < |list[1..]| ==> list[1..][i].id != id by {
          forall i | 0 <= i < |list[1..]| ensures list[1..][i].id != id {
            assert list[1..][i] == list[i + 1];
          }
        }
        assert IndexOfId(list[1..], id) == -1;
      }
    }
  }

  lemma {:induction false} WithoutIdDistinct(list: seq<Avistamento>, id: int)
    requires DistinctIds(list)
    ensures DistinctIds(WithoutId(list, id))
  {
    if list != [] {
      WithoutIdDistinct(list[1..], id);
      var rest := WithoutId(list[1..], id);
      if list[0].id != id {
        forall j | 0 < j < |[list[0]] + rest| ensures ([list[0]] + rest)[j].id != list[0].id {
          assert rest[j - 1] in list[1..];
        }
      }
    }
  }

  /**
   * Appending a sighting with a newer id to a list with the same ids, and with the initial
   * flags adding up to one, gives a list with one initial sighting and distinct ids.
   */
  lemma AppendKeepsValid(before: seq<Avistamento>, kept: seq<Avistamento>, a: Avistamento)
    requires |kept| == |before| && forall i :: 0 <= i < |kept| ==> kept[i].id == before[i].id
    requires DistinctIds(before) && forall x :: x in before ==> x.id < a.id
    requires InitialCount(kept) + (if a.isInicial then 1 else 0) == 1
    ensures OneInitial(kept + [a]) && DistinctIds(kept + [a])
  {
    InitialCountAppend(kept, a);
    var after := kept + [a];
    forall i, j | 0 <= i < j < |after| ensures after[i].id != after[j].id {
      assert after[i].id == before[i].id;
      if j == |kept| {
        assert before[i] in before;
      } else {
        assert after[j].id == before[j].id;
      }
    }
  }

  /** Promoting the first sighting of a list with no initial one leaves exactly one. */
  lemma PromoteFirst(list: seq<Avistamento>)
    requires list != [] && InitialCount(list) == 0
    ensures InitialCount(list[0 := list[0].(isInicial := true)]) == 1
  {
    assert list[0 := list[0].(isInicial := true)][1..] == list[1..];
  }

  lemma {:induction false} InitialFound(list: seq<Avistamento>)
    requires InitialCount(list) > 0
    ensures exists i :: 0 <= i < |list| && list[i].isInicial
  {
    if !list[0].isInicial {
      InitialFound(list[1..]);
      var i :| 0 <= i < |list[1..]| && list[1..][i].isInicial;
      assert list[i + 1].isInicial;
    }
  }

  /** `findIndex((a) => a.isInicial)`. */
  function IndexOfInitial(list: seq<Avistamento>): (k: int)
    ensures -1 <= k < |list|
    ensures k >= 0 ==> list[k].isInicial && forall i :: 0 <= i < k ==> !list[i].isInicial
    ensures k < 0 ==> forall i :: 0 <= i < |list| ==> !list[i].isInicial
  {
    if list == [] then -1
    else if list[0].isInicial then 0
    else
      var k := IndexOfInitial(list[1..]);
      if k < 0 then -1 else k + 1
  }

  /** `new Date(a.data) - new Date(b.data)` as a sort key. */
  function DateKey(a: Avistamento): Option<int>
  {
    Some(Timestamp(a.data))
  }

  /** `calcularRota`'s order: by date, with the initial sighting then moved to the front. */
  function RouteOrder(list: seq<Avistamento>): seq<Avistamento>
  {
    InitialFirst(Sorting.SortByKey(list, DateKey))
  }

  /** The sorted sightings with the initial one, when it is not already first, moved to the front. */
  function InitialFirst(ordenados: seq<Avistamento>): (r: seq<Avistamento>)
    ensures |r| == |ordenados|
  {
    var indexInicial := IndexOfInitial(ordenados);
    if indexInicial > 0 then [ordenados[indexInicial]] + ordenados[..indexInicial] + ordenados[indexInicial + 1..]
    else ordenados
  }

  /** Leaving one element out of a sorted sequence keeps it sorted. */
  lemma SortedWithout(s: seq<Avistamento>, k: nat)
    requires k < |s| && Sorting.SortedByKey(s, DateKey)
    ensures Sorting.SortedByKey(s[..k] + s[k + 1..], DateKey)
  {
    var t := s[..k] + s[k + 1..];
    forall i, j | 0 <= i < j < |t| ensures !Sorting.Less(DateKey, t[j], t[i]) {
      var pi := if i < k then i else i + 1;
      var pj := if j < k then j else j + 1;
      assert t[i] == s[pi] && t[j] == s[pj];
    }
  }

  /** Moving the element at `k` to the front keeps the elements and the order of the rest. */
  lemma MoveToFront(s: seq<Avistamento>, k: nat)
    requires k < |s|
    ensures var r := [s[k]] + s[..k] + s[k + 1..];
      |r| == |s| && multiset(r) == multiset(s) && r[0] == s[k] && r[1..] == s[..k] + s[k + 1..]
  {
    assert s == s[..k] + [s[k]] + s[k + 1..];
    var r := [s[k]] + s[..k] + s[k + 1..];
    assert r[1..] == s[..k] + s[k + 1..];
  }

  /** The initial sighting is still among the sorted ones. */
  lemma InitialInSorted(list: seq<Avistamento>)
    requires list != [] && OneInitial(list)
    ensures IndexOfInitial(Sorting.SortByKey(list, DateKey)) >= 0
  {
    var ordenados := Sorting.SortByKey(list, DateKey);
    InitialFound(list);
    var i :| 0 <= i < |list| && list[i].isInicial;
    assert list[i] in multiset(ordenados);
  }

  /**
   * With one initial sighting, the route is a reordering of all sightings that starts at
   * the initial one and visits the others by date, in the sorted order less that one.
   */
  lemma RouteOrderMeaning(list: seq<Avistamento>)
    requires list != [] && OneInitial(list)
    ensures var r, ordenados := RouteOrder(list), Sorting.SortByKey(list, DateKey);
      var k := IndexOfInitial(ordenados);
      |r| == |list| && multiset(r) == multiset(list)
      && 0 <= k && r[0] == ordenados[k] && r[0].isInicial
      && r[1..] == ordenados[..k] + ordenados[k + 1..]
      && Sorting.SortedByKey(r[1..], DateKey)
  {
    var ordenados := Sorting.SortByKey(list, DateKey);
    InitialInSorted(list);
    var k := IndexOfInitial(ordenados);
    InitialFirstMeaning(ordenados);
    assert Sorting.SortedByKey(ordenados[..k] + ordenados[k + 1..], DateKey) by {
      assert Sorting.AllKeyed(list, DateKey);
      Sorting.SortIsSorted(list, DateKey);
      SortedWithout(ordenados, k);
    }
  }

  /** Moving the initial sighting to the front keeps the others behind it, in their order. */
  lemma InitialFirstMeaning(ordenados: seq<Avistamento>)
    requires IndexOfInitial(ordenados) >= 0
    ensures |InitialFirst(ordenados)| == |ordenados|
    ensures multiset(InitialFirst(ordenados)) == multiset(ordenados)
    ensures InitialFirst(ordenados)[0] == ordenados[IndexOfInitial(ordenados)]
    ensures InitialFirst(ordenados)[0].isInicial
    ensures InitialFirst(ordenados)[1..] == ordenados[..IndexOfInitial(ordenados)] + ordenados[IndexOfInitial(ordenados) + 1..]
  {
    var k := IndexOfInitial(ordenados);
    if k == 0 {
      assert InitialFirst(ordenados) == ordenados;
      assert ordenados[..0] + ordenados[1..] == ordenados[1..];
    } else {
      assert InitialFirst(ordenados) == [ordenados[k]] + ordenados[..k] + ordenados[k + 1..];
      MoveToFront(ordenados, k);
    }
  }

  /** The route points, `[lat, lng]` in route order. */
  function RoutePoints(list: seq<Avistamento>): (pts: seq<LatLng>)
  {
    var ordered := RouteOrder(list);
    seq(|ordered|, i requires 0 <= i < |ordered| => (ordered[i].lat, ordered[i].lng))
  }

  function Dates(list: seq<Avistamento>): seq<DateTime>
  {
    seq(|list|, i requires 0 <= i < |list| => list[i].data)
  }

  /** The figures `calcularRota` shows: the route line, the radius, and from two points on a direction and a distance. */
  datatype RouteSummary = RouteSummary(points: seq<LatLng>, radius: real, direction: Option<string>, distance: Option<real>)

  /**
   * `calcularRota`: nothing without sightings. `dist` stands for `map.distance`, `angleOf`
   * for the `atan2` angle in degrees and `now` for the time value of `new Date()`, in
   * milliseconds; the radius is measured from the first to the last route point.
   */
  method CalcularRota(list: seq<Avistamento>, dist: (LatLng, LatLng) -> real, angleOf: (real, real) -> real, now: int)
    returns (summary: Option<RouteSummary>)
    ensures list == [] <==> summary.None?
    ensures summary.Some? ==>
      var pts := RoutePoints(list);
      |pts| == |list|
      && summary.value.points == pts
      && summary.value.radius == SearchRadius(|pts|, dist(pts[0], pts[|pts| - 1]), ElapsedHours(now, Dates(list)))
      && (summary.value.direction.Some? <==> |list| >= 2)
      && (summary.value.distance.Some? <==> |list| >= 2)
      && (|list| >= 2 ==> summary.value.direction == Some(GeneralDirection(pts, 2, angleOf))
                          && summary.value.distance == Some(PathLength(pts, dist)))
  {
    if list == [] {
      return None;
    }
    var pontosRota := RoutePoints(list);
    var raio := SearchRadius(|pontosRota|, dist(pontosRota[0], pontosRota[|pontosRota| - 1]), ElapsedHours(now, Dates(list)));
    var direcao, distancia := None, None;
    if |pontosRota| >= 2 {
      direcao := Some(GeneralDirection(pontosRota, 2, angleOf));
      var total := TotalDistance(pontosRota, dist);
      distancia := Some(total);
    }
    summary := Some(RouteSummary(pontosRota, raio, direcao, distancia));
  }

  /** The sightings of the first map. */
  class SightingLog {
    var avistamentos: seq<Avistamento>

    predicate Valid()
      reads this
    {
      OneInitial(avistamentos) && DistinctIds(avistamentos)
    }

    constructor()
      ensures Valid() && avistamentos == []
    {
      avistamentos := [];
    }

    /**
     * The sighting form's submit handler. Unreadable coordinates, or coordinates outside
     * Porto Alegre that the user does not confirm, add nothing. A sighting is initial when
     * it is the first or carries the initial description; a new initial one clears the
     * flag on all others. `now` is the clock reading that becomes the id; the clock is
     * taken to have moved on since the last submission.
     */
    method SubmitSighting(data: DateTime, descricao: string, latitude: string, longitude: string, confirmOutside: bool,
                          logradouro: string, numero: string, bairro: string, endereco: string, now: int)
      returns (outcome: SubmitOutcome, added: Option<Avistamento>)
      requires Valid()
      requires forall a :: a in avistamentos ==> a.id < now
      modifies this
      ensures Valid()
      ensures ParseFloat(latitude).None? || ParseFloat(longitude).None? ==> outcome == InvalidCoordinates
      ensures outcome == Declined <==>
        ParseFloat(latitude).Some? && ParseFloat(longitude).Some?
        && OutsidePortoAlegre(ParseFloat(latitude).value, ParseFloat(longitude).value) && !confirmOutside
      ensures (ParseFloat(latitude).Some? && ParseFloat(longitude).Some?
               && (!OutsidePortoAlegre(ParseFloat(latitude).value, ParseFloat(longitude).value) || confirmOutside))
        ==> outcome == Added
      ensures outcome != Added ==> avistamentos == old(avistamentos) && added.None?
      ensures outcome == Added ==>
        ParseFloat(latitude).Some? && ParseFloat(longitude).Some?
        && added == Some(Avistamento(now, data, descricao, ParseFloat(latitude).value, ParseFloat(longitude).value,
                                     StoredAddress(ComposedAddress(logradouro, numero, bairro), endereco),
                                     AddressDetails(logradouro, numero, bairro, "Porto Alegre"),
                                     old(avistamentos) == [] || descricao == INITIAL_DESCRIPTION))
      ensures outcome == Added && added.value.isInicial ==> avistamentos == WithoutInitial(old(avistamentos)) + [added.value]
      ensures outcome == Added && !added.value.isInicial ==> avistamentos == old(avistamentos) + [added.value]
    {
      var lat, lng := ParseFloat(latitude), ParseFloat(longitude);
      if lat.None? || lng.None? {
        return InvalidCoordinates, None;
      }
      if OutsidePortoAlegre(lat.value, lng.value) && !confirmOutside {
        return Declined, None;
      }
      var enderecoCompleto := ComposedAddress(logradouro, numero, bairro);
      var isInicial := |avistamentos| == 0 || descricao == INITIAL_DESCRIPTION;
      var avistamento := Avistamento(now, data, descricao, lat.value, lng.value, StoredAddress(enderecoCompleto, endereco),
                                     AddressDetails(logradouro, numero, bairro, "Porto Alegre"), isInicial);
      var before := avistamentos;
      if isInicial && |avistamentos| > 0 {
        avistamentos := ClearInitialFlags(avistamentos);
        WithoutInitialCount(before);
      }
      AppendKeepsValid(before, avistamentos, avistamento);
      avistamentos := avistamentos + [avistamento];
      return Added, Some(avistamento);
    }

    /**
     * `removerAvistamento`: once confirmed, every sighting with that id goes; if the one
     * removed was the initial one and others remain, the first remaining one becomes
     * initial.
     */
    method RemoveSighting(id: int, confirmed: bool)
      requires Valid()
      modifies this
      ensures Valid()
      ensures !confirmed ==> avistamentos == old(avistamentos)
      ensures confirmed ==>
        var rest, k := WithoutId(old(avistamentos), id), IndexOfId(old(avistamentos), id);
        avistamentos == if rest != [] && k >= 0 && old(avistamentos)[k].isInicial then rest[0 := rest[0].(isInicial := true)]
                        else rest
      ensures confirmed ==> |avistamentos| == |WithoutId(old(avistamentos), id)|
      ensures confirmed ==> forall i :: 0 <= i < |avistamentos| ==> avistamentos[i].id != id
    {
      if !confirmed {
        return;
      }
      var k := IndexOfId(avistamentos, id);
      var found := if k >= 0 then Some(avistamentos[k]) else None;
      RemoveCount(avistamentos, id);
      WithoutIdDistinct(avistamentos, id);
      var rest := WithoutId(avistamentos, id);
      assert forall i :: 0 <= i < |rest| ==> rest[i] in rest;
      avistamentos := rest;
      if |avistamentos| > 0 && found.Some? && found.value.isInicial {
        PromoteFirst(avistamentos);
        avistamentos := avistamentos[0 := avistamentos[0].(isInicial := true)];
      }
    }
  }
}
