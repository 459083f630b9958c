/**
 * The route renderer: on every `routesUpdated` it clears its two layer groups and draws
 * one line per visible route with points, coloured from a fixed palette in drawing order,
 * with one numbered marker per point when points are shown. The Leaflet layers are
 * modelled as the sequences of lines and markers they hold.
 */
module RouteRenderer {
  import opened Wrappers
  import opened DataModule

  /** The strong colours routes are drawn in, cycled in drawing order. */
  const ROUTE_COLORS: seq<string> := ["#FF0000", "#00CC00", "#0000FF", "#FF00FF", "#FF6600",
                                      "#9900CC", "#009999", "#CC0066", "#666600", "#990000"]

  /** A drawn route line: its `[latitude, longitude]` pairs and its colour. */
  datatype Polyline = Polyline(coords: seq<(real, real)>, color: string)

  /** A numbered marker at a point, in its route's colour. */
  datatype Marker = Marker(latitude: real, longitude: real, number: nat, color: string)

  /** A route is drawn when it is visible and has points. */
  predicate Drawn(r: Route)
  {
    r.visible && r.points != []
  }

  /** The routes that are drawn, in order. */
  function Shown(routes: seq<Route>): (s: seq<Route>)
    ensures |s| <= |routes|
  {
    if routes == [] then []
    else Shown(routes[..|routes| - 1]) + (if Drawn(routes[|routes| - 1]) then [routes[|routes| - 1]] else [])
  }

  /** The drawn routes are exactly the visible routes that have points. */
  lemma {:induction false} ShownMembers(routes: seq<Route>)
    ensures forall r :: r in Shown(routes) <==> r in routes && Drawn(r)
  {
    if routes != [] {
      var init, last := routes[..|routes| - 1], routes[|routes| - 1];
      ShownMembers(init);
      assert routes == init + [last];
      assert forall r :: r in routes <==> r in init || r == last;
    }
  }

  /** The colour of the `k`-th drawn route. */
  function ColorAt(k: nat): (c: string)
    ensures c in ROUTE_COLORS
  {
    ROUTE_COLORS[k % |ROUTE_COLORS|]
  }

  function LineOf(r: Route, color: string): Polyline
  {
    Polyline(seq(|r.points|, i requires 0 <= i < |r.points| => (r.points[i].latitude, r.points[i].longitude)), color)
  }

  function MarkersOf(r: Route, color: string): seq<Marker>
  {
    seq(|r.points|, i requires 0 <= i < |r.points| =>
      Marker(r.points[i].latitude, r.points[i].longitude, r.points[i].number, color))
  }

  /** The lines of the drawn routes, the `k`-th in the `k`-th palette colour. */
  function LinesOf(shown: seq<Route>): seq<Polyline>
  {
    seq(|shown|, k requires 0 <= k < |shown| => LineOf(shown[k], ColorAt(k)))
  }

  /** What the line layer holds after drawing `routes`. */
  function Lines(routes: seq<Route>): seq<Polyline>
  {
    LinesOf(Shown(routes))
  }

  /** The markers of the drawn routes, route after route, each in its route's colour. */
  function MarkersAll(shown: seq<Route>): seq<Marker>
  {
    if shown == [] then []
    else MarkersAll(shown[..|shown| - 1]) + MarkersOf(shown[|shown| - 1], ColorAt(|shown| - 1))
  }

  function PointCount(shown: seq<Route>): nat
  {
    if shown == [] then 0 else PointCount(shown[..|shown| - 1]) + |shown[|shown| - 1].points|
  }

  /** The drawn routes of a concatenation are those of each part, in order. */
  lemma {:induction false} ShownAppend(a: seq<Route>, b: seq<Route>)
    ensures Shown(a + b) == Shown(a) + Shown(b)
  {
    if b == [] {
      assert a + b == a;
    } else {
      var init := b[..|b| - 1];
      assert (a + b)[..|a + b| - 1] == a + init;
      ShownAppend(a, init);
    }
  }

  /** Drawing one more route adds its line after the others, in the next colour. */
  lemma LinesOfSnoc(shown: seq<Route>, r: Route)
    ensures LinesOf(shown + [r]) == LinesOf(shown) + [LineOf(r, ColorAt(|shown|))]
  {
  }

  lemma ShownSnoc(routes: seq<Route>, k: nat)
    requires k < |routes|
    ensures Shown(routes[..k + 1]) == Shown(routes[..k]) + (if Drawn(routes[k]) then [routes[k]] else [])
  {
    assert routes[..k + 1][..k] == routes[..k];
  }

  lemma MarkersAllSnoc(shown: seq<Route>, r: Route)
    ensures MarkersAll(shown + [r]) == MarkersAll(shown) + MarkersOf(r, ColorAt(|shown|))
  {
    assert (shown + [r])[..|shown|] == shown;
  }

  /** One step of the drawing loop: a drawn route adds its line and its markers in the next colour. */
  lemma DrawStep(routes: seq<Route>, k: nat)
    requires k < |routes|
    ensures var s, r := Shown(routes[..k]), routes[k];
      Shown(routes[..k + 1]) == (if Drawn(r) then s + [r] else s)
      && LinesOf(Shown(routes[..k + 1])) == (if Drawn(r) then LinesOf(s) + [LineOf(r, ColorAt(|s|))] else LinesOf(s))
      && MarkersAll(Shown(routes[..k + 1])) == (if Drawn(r) then MarkersAll(s) + MarkersOf(r, ColorAt(|s|)) else MarkersAll(s))
  {
    ShownSnoc(routes, k);
    LinesOfSnoc(Shown(routes[..k]), routes[k]);
    MarkersAllSnoc(Shown(routes[..k]), routes[k]);
  }

  /**
   * A route that is not drawn changes nothing wherever it sits: the routes after it keep
   * their colours, because the colour counter only moves for drawn routes.
   */
  lemma SkippedRouteNeutral(a: seq<Route>, r: Route, b: seq<Route>)
    requires !Drawn(r)
    ensures Lines(a + [r] + b) == Lines(a + b)
    ensures MarkersAll(Shown(a + [r] + b)) == MarkersAll(Shown(a + b))
  {
    assert Shown(a + [r] + b) == Shown(a + b) by {
      ShownAppend(a + [r], b);
      ShownAppend(a, [r]);
      ShownAppend(a, b);
      assert Shown([r]) == [];
    }
  }

  /**
   * The `i`-th route, when drawn, is the line numbered by the drawn routes before it,
   * with that number's colour.
   */
  lemma DrawnRouteColor(routes: seq<Route>, i: nat)
    requires i < |routes| && Drawn(routes[i])
    ensures var k := |Shown(routes[..i])|;
      k < |Lines(routes)| && Lines(routes)[k] == LineOf(routes[i], ROUTE_COLORS[k % 10])
  {
    assert routes == routes[..i] + [routes[i]] + routes[i + 1..];
    ShownAppend(routes[..i] + [routes[i]], routes[i + 1..]);
    ShownAppend(routes[..i], [routes[i]]);
    assert Shown([routes[i]]) == [routes[i]];
  }

  /** Colours are from the palette and repeat every ten drawn routes. */
  lemma ColorCycle(routes: seq<Route>)
    ensures var ls := Lines(routes);
      (forall k :: 0 <= k < |ls| ==> ls[k].color == ROUTE_COLORS[k % 10])
      && forall k :: 0 <= k < |ls| - 10 ==> ls[k].color == ls[k + 10].color
  {
    var ls := Lines(routes);
    forall k | 0 <= k < |ls| - 10 ensures ls[k].color == ls[k + 10].color {
      assert (k + 10) % 10 == k % 10;
    }
  }

  /** A line follows its route's points in order: one `[latitude, longitude]` pair per point. */
  lemma LineFollowsPoints(r: Route, color: string)
    ensures var l := LineOf(r, color);
      l.color == color && |l.coords| == |r.points|
      && forall i :: 0 <= i < |r.points| ==> l.coords[i] == (r.points[i].latitude, r.points[i].longitude)
  {
  }

  /** There is one marker per point of the drawn routes, each in a palette colour. */
  lemma {:induction false} MarkersCount(shown: seq<Route>)
    ensures |MarkersAll(shown)| == PointCount(shown)
    ensures forall m :: m in MarkersAll(shown) ==> m.color in ROUTE_COLORS
  {
    if shown != [] {
      MarkersCount(shown[..|shown| - 1]);
      var last := shown[|shown| - 1];
      forall m | m in MarkersOf(last, ColorAt(|shown| - 1)) ensures m.color in ROUTE_COLORS {
        var i :| 0 <= i < |last.points| && MarkersOf(last, ColorAt(|shown| - 1))[i] == m;
      }
    }
  }

  class Renderer {
    /** Whether `initialize` found a map and created the layer groups. */
    var initialized: bool
    var isActive: bool
    var pointsVisible: bool
    /** Whether the layer groups are on the map. */
    var onMap: bool
    var lines: seq<Polyline>
    var markers: seq<Marker>

    constructor()
      ensures !initialized && isActive && pointsVisible && !onMap && lines == [] && markers == []
    {
      initialized, isActive, pointsVisible, onMap := false, true, true, false;
      lines, markers := [], [];
    }

    /** `initialize`: without a map nothing happens; otherwise two empty layer groups are put on it. */
    method Initialize(mapAvailable: bool) returns (ok: bool)
      modifies this
      ensures ok == mapAvailable
      ensures !mapAvailable ==> initialized == old(initialized) && onMap == old(onMap)
                                && lines == old(lines) && markers == old(markers)
      ensures mapAvailable ==> initialized && onMap && lines == [] && markers == []
      ensures isActive == old(isActive) && pointsVisible == old(pointsVisible)
    {
      if !mapAvailable {
        return false;
      }
      initialized, onMap := true, true;
      lines, markers := [], [];
      return true;
    }

    /**
     * `renderRoutes`: nothing happens while inactive or before the layers exist; otherwise
     * both layers are cleared and then hold the drawn routes' lines, and their markers
     * when points are shown.
     */
    method RenderRoutes(routes: seq<Route>)
      modifies this
      ensures !(isActive && initialized) ==> lines == old(lines) && markers == old(markers)
      ensures isActive && initialized ==> lines == Lines(routes)
      ensures isActive && initialized ==> markers == if pointsVisible then MarkersAll(Shown(routes)) else []
      ensures initialized == old(initialized) && isActive == old(isActive)
      ensures pointsVisible == old(pointsVisible) && onMap == old(onMap)
    {
      if !isActive || !initialized {
        return;
      }
      lines, markers := [], [];
      var colorIndex := 0;
      ghost var shown: seq<Route> := [];
      var k := 0;
      while k < |routes|
        invariant 0 <= k <= |routes|
        invariant shown == Shown(routes[..k]) && colorIndex == |shown|
        invariant lines == LinesOf(shown)
        invariant markers == if pointsVisible then MarkersAll(shown) else []
        invariant initialized == old(initialized) && isActive == old(isActive)
        invariant pointsVisible == old(pointsVisible) && onMap == old(onMap)
      {
        var route := routes[k];
        ShownSnoc(routes, k);
        if Drawn(route) {
          var routeColor := ROUTE_COLORS[colorIndex % |ROUTE_COLORS|];
          LinesOfSnoc(shown, route);
          MarkersAllSnoc(shown, route);
          colorIndex := colorIndex + 1;
          lines := lines + [LineOf(route, routeColor)];
          if pointsVisible {
            AddMarkers(route, routeColor);
          }
          shown := shown + [route];
        } else {
          assert shown + [] == shown;
        }
        k := k + 1;
      }
      assert routes[..k] == routes;
    }

    /** The `forEach` adding one numbered marker per point of a route. */
    method AddMarkers(route: Route, color: string)
      modifies this
      ensures markers == old(markers) + MarkersOf(route, color)
      ensures lines == old(lines) && initialized == old(initialized) && isActive == old(isActive)
      ensures pointsVisible == old(pointsVisible) && onMap == old(onMap)
    {
      var i := 0;
      while i < |route.points|
        invariant 0 <= i <= |route.points|
        invariant markers == old(markers) + MarkersOf(route, color)[..i]
        invariant lines == old(lines) && initialized == old(initialized) && isActive == old(isActive)
        invariant pointsVisible == old(pointsVisible) && onMap == old(onMap)
      {
        var point := route.points[i];
        assert MarkersOf(route, color)[..i + 1] == MarkersOf(route, color)[..i] + [Marker(point.latitude, point.longitude, point.number, color)];
        markers := markers + [Marker(point.latitude, point.longitude, point.number, color)];
        i := i + 1;
      }
      assert MarkersOf(route, color)[..i] == MarkersOf(route, color);
    }

    /** The `pointsVisibilityChanged` listener: the flag is set and the routes are drawn again. */
    method PointsVisibilityChanged(visible: bool, routes: seq<Route>)
      modifies this
      ensures pointsVisible == visible
      ensures !(isActive && initialized) ==> lines == old(lines) && markers == old(markers)
      ensures isActive && initialized ==> lines == Lines(routes)
      ensures isActive && initialized ==> markers == if visible then MarkersAll(Shown(routes)) else []
      ensures initialized == old(initialized) && isActive == old(isActive) && onMap == old(onMap)
    {
      pointsVisible := visible;
      RenderRoutes(routes);
    }

    /**
     * `toggleRouteLayer`: the flag becomes the checkbox's state (`true` when there is none);
     * with layers and a map, switching on puts the layers back and redraws, switching off
     * takes them off the map.
     */
    method ToggleRouteLayer(checked: Option<bool>, mapAvailable: bool, routes: seq<Route>)
      modifies this
      ensures isActive <==> checked != Some(false)
      ensures !(initialized && mapAvailable) ==> onMap == old(onMap) && lines == old(lines) && markers == old(markers)
      ensures initialized && mapAvailable ==> onMap == isActive
      ensures initialized && mapAvailable && isActive ==>
        lines == Lines(routes) && markers == if pointsVisible then MarkersAll(Shown(routes)) else []
      ensures !isActive ==> lines == old(lines) && markers == old(markers)
      ensures initialized == old(initialized) && pointsVisible == old(pointsVisible)
    {
      isActive := if checked.Some? then checked.value else true;
      if !initialized || !mapAvailable {
        return;
      }
      if isActive {
        onMap := true;
        RenderRoutes(routes);
      } else {
        onMap := false;
      }
    }
  }
}
