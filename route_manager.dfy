/**
 * The route manager's persistence: routes are saved without their datetimes and
 * original line positions, and on load every point without a datetime gets one rebuilt
 * from the route's date and the point's time, by the same rule the CSV loader uses, and
 * the routes are set into the store under their ids (`Object.assign` on the routes
 * object). `clearAllRoutes` deletes every route there is, and the layer toggle keeps a
 * flag.
 */
module RouteManager {
  import opened Wrappers
  import opened Text
  import opened JsNumbers
  import opened DateTimes
  import opened DataModule

  /** A point as saved: `{ latitude, longitude, time, number, observation }`. */
  datatype SavedPoint = SavedPoint(latitude: real, longitude: real, time: string, number: nat, observation: string)

  /** A route as saved: `{ id, date, fileName, color, visible, points }`. */
  datatype SavedRoute = SavedRoute(id: string, date: string, fileName: string, color: string, visible: bool,
                                   points: seq<SavedPoint>)

  /** The simplified point; the observation is already a string, so `observation || ""` keeps it. */
  function SavePoint(p: TrackPoint): SavedPoint
  {
    SavedPoint(p.latitude, p.longitude, p.time, p.number, p.observation)
  }

  function SavePoints(points: seq<TrackPoint>): (r: seq<SavedPoint>)
    ensures |r| == |points|
    ensures forall i :: 0 <= i < |points| ==> r[i] == SavePoint(points[i])
  {
    seq(|points|, i requires 0 <= i < |points| => SavePoint(points[i]))
  }

  function SaveRoute(r: Route): SavedRoute
  {
    SavedRoute(r.id, r.date, r.fileName, r.color, r.visible, SavePoints(r.points))
  }

  /**
   * `saveRoutesToLocalStorage`: one saved route per route, in the routes' order; the
   * returned value stands for what is written under the storage key.
   */
  method SaveRoutesToLocalStorage(routes: seq<Route>) returns (routesToSave: seq<SavedRoute>)
    ensures |routesToSave| == |routes|
    ensures forall i :: 0 <= i < |routes| ==> routesToSave[i] == SaveRoute(routes[i])
  {
    routesToSave := [];
    var k := 0;
    while k < |routes|
      invariant 0 <= k <= |routes|
      invariant |routesToSave| == k
      invariant forall i :: 0 <= i < k ==> routesToSave[i] == SaveRoute(routes[i])
    {
      var route := routes[k];
      var simplifiedPoints := SavePoints(route.points);
      routesToSave := routesToSave + [SavedRoute(route.id, route.date, route.fileName, route.color, route.visible,
                                                 simplifiedPoints)];
      k := k + 1;
    }
  }

  /**
   * Saving keeps each route's id, date, file name, colour, visibility and its points in
   * order, and of each point its coordinates, time, number and observation.
   */
  lemma SaveRouteKeeps(r: Route)
    ensures var s := SaveRoute(r);
      s.id == r.id && s.date == r.date && s.fileName == r.fileName && s.color == r.color && s.visible == r.visible
      && |s.points| == |r.points|
      && forall i :: 0 <= i < |r.points| ==>
        s.points[i].latitude == r.points[i].latitude && s.points[i].longitude == r.points[i].longitude
        && s.points[i].time == r.points[i].time && s.points[i].number == r.points[i].number
        && s.points[i].observation == r.points[i].observation
  {
  }

  /** What `JSON.parse` gives back for a saved point: no datetime and no original position. */
  function ParsedPoint(p: SavedPoint): TrackPoint
  {
    TrackPoint(p.latitude, p.longitude, p.time, NoStamp, p.observation, None, p.number)
  }

  function ParsedRoute(s: SavedRoute): (r: Route)
    ensures r.id == s.id && |r.points| == |s.points|
    ensures forall i :: 0 <= i < |s.points| ==> r.points[i] == ParsedPoint(s.points[i])
  {
    Route(s.id, s.date, s.fileName, s.color, seq(|s.points|, i requires 0 <= i < |s.points| => ParsedPoint(s.points[i])),
          s.visible)
  }

  /**
   * One point on load: a point that has a datetime keeps it; otherwise it gets the one
   * built from the route's date and its own time, which is none when the date does not
   * have three `/` parts.
   */
  function WithDatetime(p: TrackPoint, date: string): TrackPoint
  {
    if p.datetime != NoStamp then p else p.(datetime := StampOf(date, p.time))
  }

  function RebuiltPoints(points: seq<TrackPoint>, date: string): (r: seq<TrackPoint>)
    ensures |r| == |points|
    ensures forall i :: 0 <= i < |points| ==> r[i] == WithDatetime(points[i], date)
  {
    seq(|points|, i requires 0 <= i < |points| => WithDatetime(points[i], date))
  }

  function RebuiltRoute(r: Route): Route
  {
    r.(points := RebuiltPoints(r.points, r.date))
  }

  function RebuiltRoutes(routes: seq<Route>): (r: seq<Route>)
    ensures |r| == |routes|
    ensures forall i :: 0 <= i < |routes| ==> r[i] == RebuiltRoute(routes[i])
  {
    seq(|routes|, i requires 0 <= i < |routes| => RebuiltRoute(routes[i]))
  }

  /** Only datetimes change on load: every other field of every point, and every route field, stays. */
  lemma RebuiltRouteKeeps(r: Route)
    ensures var s := RebuiltRoute(r);
      s.id == r.id && s.date == r.date && s.fileName == r.fileName && s.color == r.color && s.visible == r.visible
      && |s.points| == |r.points|
      && forall i :: 0 <= i < |r.points| ==> s.points[i] == r.points[i].(datetime := s.points[i].datetime)
  {
  }

  /** A point that already has a datetime is left as it is. */
  lemma KeepsExistingDatetime(p: TrackPoint, date: string)
    requires p.datetime != NoStamp
    ensures WithDatetime(p, date) == p
  {
  }

  /** A route date that does not split into three `/` parts gives its points no datetime. */
  lemma NoDatetimeWithoutThreeParts(p: TrackPoint, date: string)
    requires |Split(date, '/')| != 3
    ensures WithDatetime(p, date).datetime == p.datetime
  {
  }

  /**
   * A point with no datetime on a `D/M/Y` route (year past 99) at `H:M` or `HhM` gets
   * the moment (year, month − 1, day, hour, minute).
   */
  lemma RebuiltFromDateAndTime(p: TrackPoint, d: nat, mo: nat, y: nat, h: nat, m: nat, sep: char)
    requires p.datetime == NoStamp && y > 99 && (sep == 'h' || sep == ':')
    requires p.time == NatToString(h) + [sep] + NatToString(m)
    ensures WithDatetime(p, NatToString(d) + "/" + NatToString(mo) + "/" + NatToString(y)).datetime
      == At(DateTime(y, mo - 1, d, h, m))
  {
    var date := NatToString(d) + "/" + NatToString(mo) + "/" + NatToString(y);
    assert StampOf(date, p.time) == At(DateTime(y, mo - 1, d, ClockOf(p.time).0, ClockOf(p.time).1)) by {
      StampOfDate(d, mo, y, p.time);
    }
    assert ClockOf(p.time) == (h, m) by {
      ClockOfHourMinute(h, m, sep);
      SameClock(p.time, NatToString(h) + [sep] + NatToString(m), h, m);
    }
    DatetimeOfClock(p, date, y, mo, d, h, m);
  }

  lemma SameClock(t: string, u: string, h: int, m: int)
    requires t == u && ClockOf(u) == (h, m)
    ensures ClockOf(t) == (h, m)
  {
  }

  lemma DatetimeOfClock(p: TrackPoint, date: string, y: int, mo: int, d: int, h: int, m: int)
    requires p.datetime == NoStamp && ClockOf(p.time) == (h, m)
    requires StampOf(date, p.time) == At(DateTime(y, mo - 1, d, ClockOf(p.time).0, ClockOf(p.time).1))
    ensures WithDatetime(p, date).datetime == At(DateTime(y, mo - 1, d, h, m))
  {
  }

  /** A time with no minutes reads as that hour and minute 0. */
  lemma RebuiltFromHourOnly(p: TrackPoint, d: nat, mo: nat, y: nat, h: nat)
    requires p.datetime == NoStamp && y > 99
    requires p.time == NatToString(h)
    ensures WithDatetime(p, NatToString(d) + "/" + NatToString(mo) + "/" + NatToString(y)).datetime
      == At(DateTime(y, mo - 1, d, h, 0))
  {
    StampOfDate(d, mo, y, p.time);
    ClockOfHourOnly(h);
  }

  /** The `forEach` over a route's points, assigning `point.datetime` in place. */
  method RebuildPoints(points: seq<TrackPoint>, date: string) returns (rebuilt: seq<TrackPoint>)
    ensures rebuilt == RebuiltPoints(points, date)
  {
    rebuilt := points;
    var i := 0;
    while i < |rebuilt|
      invariant 0 <= i <= |rebuilt| == |points|
      invariant forall j :: 0 <= j < i ==> rebuilt[j] == WithDatetime(points[j], date)
      invariant forall j :: i <= j < |points| ==> rebuilt[j] == points[j]
    {
      var point := rebuilt[i];
      if point.datetime == NoStamp {
        rebuilt := rebuilt[i := point.(datetime := StampOf(date, point.time))];
      }
      i := i + 1;
    }
  }

  /** The loop over the parsed routes that rebuilds every route's datetimes. */
  method ReconstructDatetimes(routes: seq<Route>) returns (rebuilt: seq<Route>)
    ensures rebuilt == RebuiltRoutes(routes)
  {
    rebuilt := routes;
    var k := 0;
    while k < |rebuilt|
      invariant 0 <= k <= |rebuilt| == |routes|
      invariant forall j :: 0 <= j < k ==> rebuilt[j] == RebuiltRoute(routes[j])
      invariant forall j :: k <= j < |routes| ==> rebuilt[j] == routes[j]
    {
      var route := rebuilt[k];
      var points := RebuildPoints(route.points, route.date);
      rebuilt := rebuilt[k := route.(points := points)];
      k := k + 1;
    }
  }

  /**
   * `loadSavedRoutes`. `saved` is what the storage key holds once parsed, `None` when it
   * is missing or not JSON (both change nothing). The routes get their datetimes back and
   * are then set into the store under their ids.
   */
  method LoadSavedRoutes(store: DataStore, saved: Option<seq<Route>>)
    requires store.Valid()
    modifies store
    ensures store.Valid()
    ensures saved.None? ==> store.routes == old(store.routes)
    ensures saved.Some? ==> store.routes == WithRoutes(old(store.routes), RebuiltRoutes(saved.value))
    ensures store.trackPoints == old(store.trackPoints) && store.lastUpdate == old(store.lastUpdate)
  {
    if saved.None? {
      return;
    }
    var routes := ReconstructDatetimes(saved.value);
    WithRoutesUnique(store.routes, routes);
    store.routes := WithRoutes(store.routes, routes);
  }

  /** Rebuilding keeps route ids, so routes saved under distinct ids load under distinct ids. */
  lemma RebuiltUnique(routes: seq<Route>)
    requires UniqueIds(routes)
    ensures UniqueIds(RebuiltRoutes(routes))
  {
  }

  /**
   * After a load every saved route is in the store under its id, with its datetimes
   * rebuilt, and a stored route whose id was not saved keeps its place.
   */
  lemma LoadedRoutesStored(before: seq<Route>, saved: seq<Route>)
    requires UniqueIds(before) && UniqueIds(saved)
    ensures var after := WithRoutes(before, RebuiltRoutes(saved));
      |after| >= |before|
      && (forall k :: 0 <= k < |saved| ==>
            RouteIndex(after, saved[k].id) >= 0 && after[RouteIndex(after, saved[k].id)] == RebuiltRoute(saved[k]))
      && (forall i :: 0 <= i < |before| && (forall k :: 0 <= k < |saved| ==> saved[k].id != before[i].id) ==>
            after[i] == before[i])
  {
    var rebuilt := RebuiltRoutes(saved);
    RebuiltUnique(saved);
    WithRoutesMeaning(before, rebuilt);
    assert forall k :: 0 <= k < |saved| ==> rebuilt[k].id == saved[k].id;
  }

  /** The points as they come back from storage: datetimes and positions forgotten. */
  function Forgotten(points: seq<TrackPoint>): (r: seq<TrackPoint>)
    ensures |r| == |points|
    ensures forall i :: 0 <= i < |points| ==> r[i] == points[i].(datetime := NoStamp, originalIndex := None)
  {
    seq(|points|, i requires 0 <= i < |points| => points[i].(datetime := NoStamp, originalIndex := None))
  }

  /** Saving a route and parsing it back forgets every point's datetime and file position, and keeps the rest. */
  lemma SavedPointsForgotten(r: Route)
    ensures ParsedRoute(SaveRoute(r)).points == Forgotten(r.points)
  {
  }

  /**
   * Saving a route and loading it back gives the same route, except that the points'
   * positions in the file are gone, provided each point's datetime is the one its date and
   * time give, as for every point the CSV loader reads.
   */
  lemma {:induction false} SaveLoadRoundTrip(r: Route)
    requires forall i :: 0 <= i < |r.points| ==> r.points[i].datetime == StampOf(r.date, r.points[i].time)
    ensures RebuiltRoute(ParsedRoute(SaveRoute(r))) == r.(points := seq(|r.points|, i requires 0 <= i < |r.points| =>
              r.points[i].(originalIndex := None)))
  {
    var back := RebuiltRoute(ParsedRoute(SaveRoute(r)));
    SavedPointsForgotten(r);
    var expected := seq(|r.points|, i requires 0 <= i < |r.points| => r.points[i].(originalIndex := None));
    forall i | 0 <= i < |r.points| ensures back.points[i] == expected[i] {
      var q := ParsedRoute(SaveRoute(r)).points[i];
      assert q == Forgotten(r.points)[i];
      assert back.points[i] == WithDatetime(q, r.date);
    }
  }

  /** Every point a CSV line gives carries the datetime its date and time give. */
  lemma ParsedDatetimeRebuilds(line: string, delim: char, originalIndex: int)
    ensures var r := ParseLine(line, delim, originalIndex);
      r.Some? ==> WithDatetime(r.value.1.(datetime := NoStamp), r.value.0) == r.value.1
  {
    ParsedPointShape(line, delim, originalIndex);
  }

  /**
   * `clearAllRoutes`: each route id present at the start is deleted in turn, so no route
   * is left. Removing the storage key is not part of this model.
   */
  method ClearAllRoutes(store: DataStore)
    requires store.Valid()
    modifies store
    ensures store.Valid()
    ensures store.routes == []
    ensures store.trackPoints == old(store.trackPoints) && store.lastUpdate == old(store.lastUpdate)
  {
    var start := store.routes;
    var k := 0;
    while k < |start|
      invariant 0 <= k <= |start|
      invariant store.routes == start[k..]
      invariant store.Valid()
      invariant store.trackPoints == old(store.trackPoints) && store.lastUpdate == old(store.lastUpdate)
    {
      DeleteFirst(start[k..]);
      var _ := store.DeleteRoute(start[k].id);
      assert start[k..][1..] == start[k + 1..];
      k := k + 1;
    }
  }

  /** With unique ids, deleting the first route's id leaves exactly the others. */
  lemma DeleteFirst(routes: seq<Route>)
    requires UniqueIds(routes) && routes != []
    ensures WithoutRoute(routes, routes[0].id) == routes[1..]
  {
    assert forall i :: 0 <= i < |routes[1..]| ==> routes[1..][i] == routes[i + 1];
    WithoutRouteAbsent(routes[1..], routes[0].id);
  }

  /** The manager's layer switch. */
  class RouteLayerSwitch {
    var isActive: bool

    constructor()
      ensures isActive
    {
      isActive := true;
    }

    /**
     * `toggleRouteLayer`: the flag becomes the checkbox's state, `true` when there is none
     * (`checked ?? true`); the answer says whether the routes are redrawn, which happens
     * exactly when the layer is on.
     */
    method ToggleRouteLayer(checked: Option<bool>) returns (redraw: bool)
      modifies this
      ensures isActive <==> checked != Some(false)
      ensures redraw == isActive
    {
      isActive := if checked.Some? then checked.value else true;
      redraw := isActive;
    }
  }
}
