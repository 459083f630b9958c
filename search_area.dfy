/**
 * The search-area figures both sighting maps show once the route is drawn: the radius
 * of the circle around the last sighting, the general direction from the first to the
 * last route point, and the distance along the route. Map distances and the `atan2`
 * angle are inputs; the rules applied to them are modelled.
 */
module SearchArea {
  import opened Wrappers
  import opened DateTimes

  /** A route point, `[lat, lng]`. */
  type LatLng = (real, real)

  function Min(a: real, b: real): real { if a <= b then a else b }

  function Max(a: real, b: real): real { if a >= b then a else b }

  /** `Math.min(Math.max(distancia * 0.5, 500), 5000)`. */
  function BaseRadius(distance: real): (r: real)
    ensures 500.0 <= r <= 5000.0
    ensures 1000.0 <= distance <= 10000.0 ==> r == distance / 2.0
    ensures distance < 1000.0 ==> r == 500.0
    ensures distance > 10000.0 ==> r == 5000.0
  {
    Min(Max(distance * 0.5, 500.0), 5000.0)
  }

  /**
   * `calcularRaioBusca`: 1000 for fewer than two points; otherwise the clamped base,
   * multiplied by 1.2, 1.5 and 2 in turn once more than 12, 24 and 48 hours have passed
   * since the earliest sighting.
   */
  function SearchRadius(pointCount: nat, distance: real, hours: real): real
  {
    if pointCount < 2 then 1000.0
    else
      var raio := BaseRadius(distance);
      var raio := if hours > 12.0 then raio * 1.2 else raio;
      var raio := if hours > 24.0 then raio * 1.5 else raio;
      if hours > 48.0 then raio * 2.0 else raio
  }

  /** The factor the elapsed time applies to the base radius. */
  function TimeFactor(hours: real): (f: real)
    ensures 1.0 <= f <= 3.6
  {
    if hours > 48.0 then 3.6 else if hours > 24.0 then 1.8 else if hours > 12.0 then 1.2 else 1.0
  }

  /** From two points on, the radius is the clamped base times the time factor, so it lies in [500, 18000]. */
  lemma RadiusLadder(pointCount: nat, distance: real, hours: real)
    requires pointCount >= 2
    ensures SearchRadius(pointCount, distance, hours) == BaseRadius(distance) * TimeFactor(hours)
    ensures 500.0 <= SearchRadius(pointCount, distance, hours) <= 18000.0
  {
    var b, f := BaseRadius(distance), TimeFactor(hours);
    assert b * f <= 5000.0 * 3.6 by {
      assert b * f <= 5000.0 * f;
    }
    assert b * f >= 500.0 by {
      assert b * f >= 500.0 * f;
    }
  }

  /** More distance or more elapsed time never shrinks the radius. */
  lemma RadiusMonotone(pointCount: nat, d1: real, d2: real, h1: real, h2: real)
    requires pointCount >= 2 && d1 <= d2 && h1 <= h2
    ensures SearchRadius(pointCount, d1, h1) <= SearchRadius(pointCount, d2, h2)
  {
    RadiusLadder(pointCount, d1, h1);
    RadiusLadder(pointCount, d2, h2);
    var b1, b2, f1, f2 := BaseRadius(d1), BaseRadius(d2), TimeFactor(h1), TimeFactor(h2);
    assert b1 <= b2 && f1 <= f2;
    assert b1 * f1 <= b2 * f1;
    assert b2 * f1 <= b2 * f2;
  }

  /** The earliest sighting date, as `reduce((prev, cur) => new Date(prev) < new Date(cur) ? prev : cur)` picks it. */
  function Earliest(dates: seq<DateTime>): (e: DateTime)
    requires dates != []
    ensures e in dates
    ensures forall d :: d in dates ==> EpochMillis(e) <= EpochMillis(d)
  {
    if |dates| == 1 then dates[0]
    else
      var prev, cur := Earliest(dates[..|dates| - 1]), dates[|dates| - 1];
      assert forall d :: d in dates ==> d in dates[..|dates| - 1] || d == cur;
      if EpochMillis(prev) < EpochMillis(cur) then prev else cur
  }

  /** `(new Date() - new Date(earliest)) / (1000 * 60 * 60)`, with `now` the current time value in milliseconds. */
  function ElapsedHours(now: int, dates: seq<DateTime>): real
    requires dates != []
  {
    (now - EpochMillis(Earliest(dates))) as real / 3600000.0
  }

  /** A sighting seen at the same clock time on the previous calendar day, across month and year ends, is 24 hours old. */
  lemma ElapsedOneDay(dt: DateTime)
    requires ValidDate(dt)
    ensures ElapsedHours(EpochMillis(NextDay(dt)), [dt]) == 24.0
  {
    NextDayIsOneDayLater(dt);
  }

  /** Seen on January 31 at 20:00 and measured on February 1 at 10:00, a sighting is 14 hours old. */
  lemma ElapsedAcrossMonthEnd()
    ensures ElapsedHours(EpochMillis(DateTime(2024, 1, 1, 10, 0)), [DateTime(2024, 0, 31, 20, 0)]) == 14.0
  {
    var dt := DateTime(2024, 0, 31, 20, 0);
    NextDayIsOneDayLater(dt);
    assert EpochMillis(DateTime(2024, 1, 1, 10, 0)) == EpochMillis(NextDay(dt)) - 10 * 60 * MS_PER_MINUTE;
  }

  /** Sum of `dist` over consecutive pairs: the route length. */
  function PathLength(points: seq<LatLng>, dist: (LatLng, LatLng) -> real): real
  {
    if |points| < 2 then 0.0
    else PathLength(points[..|points| - 1], dist) + dist(points[|points| - 2], points[|points| - 1])
  }

  /** `calcularDistanciaTotal`: the running sum over `i = 1 .. n-1` of `map.distance(p[i-1], p[i])`. */
  method TotalDistance(points: seq<LatLng>, dist: (LatLng, LatLng) -> real) returns (distanciaTotal: real)
    ensures distanciaTotal == PathLength(points, dist)
  {
    distanciaTotal := 0.0;
    var i := 1;
    while i < |points|
      invariant 1 <= i
      invariant |points| == 0 ==> i == 1 && distanciaTotal == 0.0
      invariant |points| > 0 ==> i <= |points| && distanciaTotal == PathLength(points[..i], dist)
    {
      assert points[..i + 1][..i] == points[..i];
      distanciaTotal := distanciaTotal + dist(points[i - 1], points[i]);
      i := i + 1;
    }
    if |points| > 0 {
      assert points[..i] == points;
    }
  }

  /** Joining two routes adds the hop between them. */
  lemma {:induction false} PathLengthAppend(a: seq<LatLng>, b: seq<LatLng>, dist: (LatLng, LatLng) -> real)
    requires a != [] && b != []
    ensures PathLength(a + b, dist) == PathLength(a, dist) + dist(a[|a| - 1], b[0]) + PathLength(b, dist)
  {
    if |b| == 1 {
      assert (a + b)[..|a + b| - 1] == a;
    } else {
      var init := b[..|b| - 1];
      assert (a + b)[..|a + b| - 1] == a + init;
      PathLengthAppend(a, init, dist);
      assert init[0] == b[0];
      assert b[..|b| - 1] == init;
    }
  }

  /** With a distance that is never negative, the route is at least as long as any one hop of it. */
  lemma {:induction false} PathLengthCoversHop(points: seq<LatLng>, dist: (LatLng, LatLng) -> real, i: nat)
    requires forall p, q :: dist(p, q) >= 0.0
    requires 0 < i < |points|
    ensures PathLength(points, dist) >= dist(points[i - 1], points[i])
    ensures PathLength(points, dist) >= 0.0
  {
    if i < |points| - 1 {
      PathLengthCoversHop(points[..|points| - 1], dist, i);
    } else if |points| > 2 {
      PathLengthCoversHop(points[..|points| - 1], dist, 1);
    }
  }

  /** The eight compass labels. */
  const NORTE := "Norte"
  const NORDESTE := "Nordeste"
  const LESTE := "Leste"
  const SUDESTE := "Sudeste"
  const SUL := "Sul"
  const SUDOESTE := "Sudoeste"
  const OESTE := "Oeste"
  const NOROESTE := "Noroeste"
  const UNDETERMINED := "Indeterminada"

  /**
   * The sector table of `calcularDirecaoGeral` as written. The angle it is given is
   * `Math.atan2(dy, dx)` in degrees, with `dx` the longitude change and `dy` the latitude
   * change, i.e. measured counter-clockwise from east; the table labels it as a bearing
   * measured clockwise from north.
   */
  function SectorAsWritten(angle: real): string
  {
    if angle < -157.5 then SUL
    else if angle < -112.5 then SUDOESTE
    else if angle < -67.5 then OESTE
    else if angle < -22.5 then NOROESTE
    else if angle < 22.5 then NORTE
    else if angle < 67.5 then NORDESTE
    else if angle < 112.5 then LESTE
    else if angle < 157.5 then SUDESTE
    else SUL
  }

  /** The same boundaries, labelled for an angle counter-clockwise from east. */
  function Sector(angle: real): string
  {
    if angle < -157.5 then OESTE
    else if angle < -112.5 then SUDOESTE
    else if angle < -67.5 then SUL
    else if angle < -22.5 then SUDESTE
    else if angle < 22.5 then LESTE
    else if angle < 67.5 then NORDESTE
    else if angle < 112.5 then NORTE
    else if angle < 157.5 then NOROESTE
    else OESTE
  }

  /** The direction of a compass label, counter-clockwise from east, in degrees. */
  function LabelAngle(name: string): real
  {
    if name == LESTE then 0.0
    else if name == NORDESTE then 45.0
    else if name == NORTE then 90.0
    else if name == NOROESTE then 135.0
    else if name == OESTE then 180.0
    else if name == SUDOESTE then -135.0
    else if name == SUL then -90.0
    else -45.0
  }

  function Abs(x: real): real { if x < 0.0 then -x else x }

  /** The angle between two directions, going round whichever way is shorter. */
  function AngularGap(a: real, b: real): real
  {
    Min(Abs(a - b), 360.0 - Abs(a - b))
  }

  /** Every angle of `atan2` gets the label of the compass point at most 22.5 degrees away. */
  lemma SectorNearest(angle: real)
    requires -180.0 <= angle <= 180.0
    ensures AngularGap(angle, LabelAngle(Sector(angle))) <= 22.5
  {
  }

  /**
   * A route that ends due north of where it starts (`dx = 0`, `dy > 0`) has an `atan2`
   * angle of 90 degrees; the table as written calls that east, 90 degrees away.
   */
  lemma NorthwardReadsAsEast()
    ensures SectorAsWritten(90.0) == LESTE && AngularGap(90.0, LabelAngle(SectorAsWritten(90.0))) == 90.0
    ensures Sector(90.0) == NORTE
  {
  }

  /** Due east (angle 0) reads as north in the table as written. */
  lemma EastwardReadsAsNorth()
    ensures SectorAsWritten(0.0) == NORTE && Sector(0.0) == LESTE
  {
  }

  /**
   * The table as written names the compass point nearest the bearing `90 - angle`: it reads
   * the counter-clockwise-from-east angle as if it were measured clockwise from north.
   */
  lemma SectorAsWrittenReadsBearing(angle: real)
    requires -180.0 <= angle <= 180.0
    ensures AngularGap(90.0 - angle, LabelAngle(SectorAsWritten(angle))) <= 22.5
  {
  }

  /** `Math.atan2(dy, dx) * 180 / Math.PI` from the first to the last point, with `angleOf(dx, dy)` standing for it. */
  function DirectionAngle(points: seq<LatLng>, angleOf: (real, real) -> real): real
    requires points != []
  {
    var primeiro, ultimo := points[0], points[|points| - 1];
    angleOf(ultimo.1 - primeiro.1, ultimo.0 - primeiro.0)
  }

  /**
   * `calcularDirecaoGeral` as written: undetermined below `minPoints` points, otherwise the
   * sector the table as written gives the angle from the first to the last point.
   */
  function GeneralDirection(points: seq<LatLng>, minPoints: nat, angleOf: (real, real) -> real): (r: string)
    requires minPoints >= 1
    ensures |points| < minPoints ==> r == UNDETERMINED
    ensures |points| >= minPoints ==> r != UNDETERMINED
  {
    if |points| < minPoints then UNDETERMINED
    else SectorAsWritten(DirectionAngle(points, angleOf))
  }

  /** The direction shown is the compass point nearest the bearing `90 - angle`, not the angle itself. */
  lemma GeneralDirectionBearing(points: seq<LatLng>, minPoints: nat, angleOf: (real, real) -> real)
    requires minPoints >= 1 && |points| >= minPoints
    requires forall dx, dy :: -180.0 <= angleOf(dx, dy) <= 180.0
    ensures AngularGap(90.0 - DirectionAngle(points, angleOf), LabelAngle(GeneralDirection(points, minPoints, angleOf))) <= 22.5
  {
    SectorAsWrittenReadsBearing(DirectionAngle(points, angleOf));
  }

  /** The general direction with the corrected table. */
  function IntendedDirection(points: seq<LatLng>, minPoints: nat, angleOf: (real, real) -> real): (r: string)
    requires minPoints >= 1
    ensures |points| < minPoints ==> r == UNDETERMINED
    ensures |points| >= minPoints ==> r != UNDETERMINED
  {
    if |points| < minPoints then UNDETERMINED
    else Sector(DirectionAngle(points, angleOf))
  }

  /** With the corrected table the direction named is the compass point nearest the first-to-last angle. */
  lemma IntendedDirectionNearest(points: seq<LatLng>, minPoints: nat, angleOf: (real, real) -> real)
    requires minPoints >= 1 && |points| >= minPoints
    requires forall dx, dy :: -180.0 <= angleOf(dx, dy) <= 180.0
    ensures AngularGap(DirectionAngle(points, angleOf), LabelAngle(IntendedDirection(points, minPoints, angleOf))) <= 22.5
  {
    SectorNearest(DirectionAngle(points, angleOf));
  }
}
