/** The mining-advance simulator of
    frontend/src/composables/useMiningSimulation.js: a playback state
    machine driving a progress percentage, and the mining geometry (front
    line, goaf polygon, stress and relief zones) derived from the workface
    and the state. Clocks and frame handles are parameters; cos, sin and pi
    come in a Trig record. */
module MiningSimulation {
  import opened Common

  // ---------------------------------------------------------------------
  // Configuration and derived distances

  /** The caller's options; an absent or zero number takes the default. */
  datatype SimOptions = SimOptions(totalDistance: Option<real>, frameRate: Option<real>,
                                   progressPerSecond: Option<real>, autoPlay: Option<bool>)

  datatype Config = Config(totalDistance: real, frameRate: real, progressPerSecond: real,
                           autoPlay: bool)

  /** `x || default` on a number option: the default or the given number,
      the given number whenever it is truthy, and never 0 when the default
      is not. */
  function OrDefault(x: Option<real>, default: real): (r: real)
    ensures r == default || x == Some(r)
    ensures x.Some? && x.value != 0.0 ==> r == x.value
    ensures default != 0.0 ==> r != 0.0
  {
    if x.None? || x.value == 0.0 then default else x.value
  }

  /** The config record: 500 m of travel, 60 frames per second and 10 % per
      second unless given, no autoplay unless asked. */
  function MakeConfig(opts: SimOptions): (c: Config)
    ensures opts == SimOptions(None, None, None, None) ==> c == Config(500.0, 60.0, 10.0, false)
    ensures c.totalDistance != 0.0 && c.frameRate != 0.0 && c.progressPerSecond != 0.0
  {
    Config(OrDefault(opts.totalDistance, 500.0), OrDefault(opts.frameRate, 60.0),
           OrDefault(opts.progressPerSecond, 10.0), opts.autoPlay == Some(true))
  }

  /** currentDistance: the metres mined at a progress percentage. */
  function CurrentDistance(progress: real, c: Config): (d: real)
    ensures progress == 0.0 ==> d == 0.0
    ensures progress == 100.0 ==> d == c.totalDistance
    ensures 0.0 <= progress <= 100.0 && c.totalDistance >= 0.0 ==> 0.0 <= d <= c.totalDistance
  {
    if 0.0 <= progress <= 100.0 && c.totalDistance >= 0.0 then
      ScaledFraction(c.totalDistance, progress / 100.0);
      (progress / 100.0) * c.totalDistance
    else (progress / 100.0) * c.totalDistance
  }

  /** remainingDistance: what is left of the total. */
  function RemainingDistance(progress: real, c: Config): (d: real)
    ensures progress == 0.0 ==> d == c.totalDistance
    ensures progress == 100.0 ==> d == 0.0
    ensures 0.0 <= progress <= 100.0 && c.totalDistance >= 0.0 ==> 0.0 <= d <= c.totalDistance
  {
    c.totalDistance - CurrentDistance(progress, c)
  }

  /** isComplete: progress has reached 100. */
  predicate IsComplete(progress: real) {
    progress >= 100.0
  }

  /** On a positive total the run is complete exactly when nothing of the
      total remains. */
  lemma CompleteIffExhausted(progress: real, c: Config)
    requires c.totalDistance > 0.0
    ensures IsComplete(progress) <==> RemainingDistance(progress, c) <= 0.0
  {
    var q := progress / 100.0;
    assert RemainingDistance(progress, c) == (1.0 - q) * c.totalDistance;
    if progress >= 100.0 {
      assert 1.0 - q <= 0.0;
      MulNonpos(1.0 - q, c.totalDistance);
    } else {
      assert 1.0 - q > 0.0;
      MulPos(1.0 - q, c.totalDistance);
    }
  }

  lemma MulNonpos(a: real, b: real)
    requires a <= 0.0 && b > 0.0
    ensures a * b <= 0.0
  {
    assert (-a) * b >= 0.0;
  }

  lemma MulPos(a: real, b: real)
    requires a > 0.0 && b > 0.0
    ensures a * b > 0.0
  {
  }

  /** Mined and remaining distance add up to the total, run from 0 to the
      total as progress runs from 0 to 100, and stay within it. */
  lemma DistancesSplitTotal(progress: real, c: Config)
    ensures CurrentDistance(progress, c) + RemainingDistance(progress, c) == c.totalDistance
    ensures CurrentDistance(0.0, c) == 0.0 && RemainingDistance(0.0, c) == c.totalDistance
    ensures CurrentDistance(100.0, c) == c.totalDistance && RemainingDistance(100.0, c) == 0.0
  {
  }

  // ---------------------------------------------------------------------
  // Direction

  /** Truncation toward zero, as JavaScript's `%` uses it: the integer
      next to x on the side of 0, within one unit of x. */
  function Trunc(x: real): (n: int)
    ensures x >= 0.0 ==> n as real <= x < n as real + 1.0
    ensures x <= 0.0 ==> n as real - 1.0 < x <= n as real
  {
    if x >= 0.0 then x.Floor else -((-x).Floor)
  }

  /** `angle % 360` in JavaScript: the remainder takes the sign of the
      dividend. */
  function JsRem360(a: real): (r: real)
    ensures a >= 0.0 ==> 0.0 <= r < 360.0
    ensures a < 0.0 ==> -360.0 < r <= 0.0
    ensures (a - r) / 360.0 == Trunc(a / 360.0) as real
  {
    a - 360.0 * (Trunc(a / 360.0) as real)
  }

  /** A difference of whole turns. */
  predicate WholeTurns(x: real) {
    x / 360.0 == (x / 360.0).Floor as real
  }

  /** setDirection: the remainder, shifted into [0, 360) when negative. */
  function NormalizeDirection(a: real): (d: real)
    ensures 0.0 <= d < 360.0
    ensures WholeTurns(a - d)
  {
    var r := JsRem360(a);
    var t := Trunc(a / 360.0);
    if r < 0.0 then
      TurnBack(a, r, t);
      r + 360.0
    else r
  }

  /** Adding a turn to the remainder takes one turn off the quotient. */
  lemma TurnBack(a: real, r: real, t: int)
    requires (a - r) / 360.0 == t as real
    ensures (a - (r + 360.0)) / 360.0 == (t - 1) as real
  {
  }

  /** An angle already in [0, 360) is kept, and normalising twice is
      normalising once. */
  lemma NormalizeDirectionStable(a: real)
    ensures 0.0 <= a < 360.0 ==> NormalizeDirection(a) == a
    ensures NormalizeDirection(NormalizeDirection(a)) == NormalizeDirection(a)
  {
    var d := NormalizeDirection(a);
    assert Trunc(d / 360.0) == 0;
    if 0.0 <= a < 360.0 {
      assert Trunc(a / 360.0) == 0;
    }
  }

  /** The advance direction in radians: `(direction - 90) * PI / 180`. So
      90 degrees advances towards +x, 0 towards -y. */
  function DirectionRad(direction: real, trig: Trig): (a: real)
    ensures direction == 90.0 ==> a == 0.0
    ensures direction == 0.0 ==> a == -trig.pi / 2.0
  {
    (direction - 90.0) * trig.pi / 180.0
  }

  /** A whole turn of the direction adds a whole turn of 2 pi radians. */
  lemma DirectionRadTurn(direction: real, trig: Trig)
    ensures DirectionRad(direction + 360.0, trig) == DirectionRad(direction, trig) + 2.0 * trig.pi
  {
  }

  // ---------------------------------------------------------------------
  // Workface geometry

  /** The workface: explicit bounds, or the polygon they are computed from. */
  datatype Workface = Workface(bounds: Option<Bounds>, points: seq<Point>)

  /** `Math.min(...xs)` over the points' x. */
  function MinX(ps: seq<Point>): (m: real)
    requires |ps| > 0
    ensures forall k :: 0 <= k < |ps| ==> m <= ps[k].x
    ensures exists k :: 0 <= k < |ps| && m == ps[k].x
  {
    if |ps| == 1 then ps[0].x
    else
      var rest := MinX(ps[1..]);
      assert forall k :: 1 <= k < |ps| ==> ps[k] == ps[1..][k - 1];
      Min(ps[0].x, rest)
  }

  function MaxX(ps: seq<Point>): (m: real)
    requires |ps| > 0
    ensures forall k :: 0 <= k < |ps| ==> m >= ps[k].x
    ensures exists k :: 0 <= k < |ps| && m == ps[k].x
  {
    if |ps| == 1 then ps[0].x
    else
      var rest := MaxX(ps[1..]);
      assert forall k :: 1 <= k < |ps| ==> ps[k] == ps[1..][k - 1];
      Max(ps[0].x, rest)
  }

  function MinY(ps: seq<Point>): (m: real)
    requires |ps| > 0
    ensures forall k :: 0 <= k < |ps| ==> m <= ps[k].y
    ensures exists k :: 0 <= k < |ps| && m == ps[k].y
  {
    if |ps| == 1 then ps[0].y
    else
      var rest := MinY(ps[1..]);
      assert forall k :: 1 <= k < |ps| ==> ps[k] == ps[1..][k - 1];
      Min(ps[0].y, rest)
  }

  function MaxY(ps: seq<Point>): (m: real)
    requires |ps| > 0
    ensures forall k :: 0 <= k < |ps| ==> m >= ps[k].y
    ensures exists k :: 0 <= k < |ps| && m == ps[k].y
  {
    if |ps| == 1 then ps[0].y
    else
      var rest := MaxY(ps[1..]);
      assert forall k :: 1 <= k < |ps| ==> ps[k] == ps[1..][k - 1];
      Max(ps[0].y, rest)
  }

  /** workfaceBounds: the given bounds, else the bounding box of a
      non-empty polygon, else nothing. */
  function WorkfaceBounds(wf: Option<Workface>): (b: Option<Bounds>)
    ensures b.None? <==> wf.None? || (wf.value.bounds.None? && |wf.value.points| == 0)
    ensures wf.Some? && wf.value.bounds.Some? ==> b == wf.value.bounds
  {
    if wf.None? then None
    else if wf.value.bounds.Some? then wf.value.bounds
    else if |wf.value.points| > 0 then
      var ps := wf.value.points;
      Some(Bounds(MinX(ps), MaxX(ps), MinY(ps), MaxY(ps)))
    else None
  }

  /** Without explicit bounds, the computed box holds every polygon point
      and each of its four sides touches one. */
  lemma PolygonBoundsTight(wf: Workface)
    requires wf.bounds.None? && |wf.points| > 0
    ensures var b := WorkfaceBounds(Some(wf)).value;
            && (forall k :: 0 <= k < |wf.points| ==>
                  b.minX <= wf.points[k].x <= b.maxX && b.minY <= wf.points[k].y <= b.maxY)
            && (exists k :: 0 <= k < |wf.points| && wf.points[k].x == b.minX)
            && (exists k :: 0 <= k < |wf.points| && wf.points[k].x == b.maxX)
            && (exists k :: 0 <= k < |wf.points| && wf.points[k].y == b.minY)
            && (exists k :: 0 <= k < |wf.points| && wf.points[k].y == b.maxY)
  {
    var ps := wf.points;
    var b := WorkfaceBounds(Some(wf)).value;
    assert b == Bounds(MinX(ps), MaxX(ps), MinY(ps), MaxY(ps));
  }

  function WorkfaceCenter(wf: Option<Workface>): (c: Option<Point>)
    ensures c.None? <==> WorkfaceBounds(wf).None?
  {
    match WorkfaceBounds(wf)
    case None => None
    case Some(b) => Some(Point((b.minX + b.maxX) / 2.0, (b.minY + b.maxY) / 2.0))
  }

  /** workfaceLength: the north-south extent, 0 without bounds. */
  function WorkfaceLength(wf: Option<Workface>): (len: real)
    ensures WorkfaceBounds(wf).None? ==> len == 0.0
  {
    match WorkfaceBounds(wf)
    case None => 0.0
    case Some(b) => b.maxY - b.minY
  }

  /** A segment with its midpoint, its angle and its nominal length. */
  datatype Line = Line(start: Point, end: Point, center: Point, angle: real, length: real)

  /** The segment of a given length through `center` at angle `angle`. */
  function Face(center: Point, angle: real, length: real, trig: Trig): (l: Line)
    ensures l.center == center && l.angle == angle && l.length == length
  {
    var half := length / 2.0;
    Line(Point(center.x - trig.cos(angle) * half, center.y - trig.sin(angle) * half),
         Point(center.x + trig.cos(angle) * half, center.y + trig.sin(angle) * half),
         center, angle, length)
  }

  /** cos^2 + sin^2 = 1 at one angle: the one trigonometric fact the
      length lemmas need. */
  predicate UnitAt(trig: Trig, angle: real) {
    trig.cos(angle) * trig.cos(angle) + trig.sin(angle) * trig.sin(angle) == 1.0
  }

  /** Squared Euclidean distance. */
  function Dist2(p: Point, q: Point): real {
    (p.x - q.x) * (p.x - q.x) + (p.y - q.y) * (p.y - q.y)
  }

  /** Moving a point by d along a unit direction (c, s) moves it d away. */
  lemma DisplacedBy(p: Point, c: real, s: real, d: real)
    requires c * c + s * s == 1.0
    ensures Dist2(Point(p.x + c * d, p.y + s * d), p) == d * d
  {
    assert (p.x + c * d) - p.x == c * d;
    assert (p.y + s * d) - p.y == s * d;
    calc {
      (c * d) * (c * d) + (s * d) * (s * d);
      d * d * (c * c + s * s);
      d * d;
    }
  }

  /** A face's centre is the midpoint of its ends; when cos and sin of its
      angle obey cos^2 + sin^2 = 1, its ends are exactly its length apart. */
  lemma FaceSymmetric(center: Point, angle: real, length: real, trig: Trig)
    ensures var l := Face(center, angle, length, trig);
            && l.center == Point((l.start.x + l.end.x) / 2.0, (l.start.y + l.end.y) / 2.0)
            && (UnitAt(trig, angle) ==> Dist2(l.end, l.start) == length * length)
  {
    var l := Face(center, angle, length, trig);
    var c := trig.cos(angle);
    var s := trig.sin(angle);
    var half := length / 2.0;
    if UnitAt(trig, angle) {
      assert l.end == Point(l.start.x + c * length, l.start.y + s * length);
      DisplacedBy(l.start, c, s, length);
    }
  }

  /** frontLine: the face's centre starts at (min_x, centre y) and moves
      along the direction by the mined share of the east-west width; the
      face itself runs perpendicular to the direction, as long as the
      workface is north-south. */
  function FrontLine(wf: Option<Workface>, progress: real, direction: real, trig: Trig): (l: Option<Line>)
    ensures l.None? <==> WorkfaceBounds(wf).None?
  {
    match WorkfaceBounds(wf)
    case None => None
    case Some(b) => Some(FrontLineAt(b, progress, direction, trig))
  }

  /** The front line over known workface bounds; the workface's centre and
      length are those of the bounds. */
  function FrontLineAt(b: Bounds, progress: real, direction: real, trig: Trig): Line {
    var angle := DirectionRad(direction, trig);
    var distance := (b.maxX - b.minX) * (progress / 100.0);
    var cx := b.minX + trig.cos(angle) * distance;
    var cy := (b.minY + b.maxY) / 2.0 + trig.sin(angle) * distance;
    Face(Point(cx, cy), angle + trig.pi / 2.0, b.maxY - b.minY, trig)
  }

  /** goafArea: the back line through the start position, then the front
      line's end and start, closing the mined area. */
  function GoafArea(wf: Option<Workface>, progress: real, direction: real, trig: Trig): (g: Option<seq<Point>>)
    ensures g.None? <==> WorkfaceBounds(wf).None?
    ensures g.Some? ==> |g.value| == 4
  {
    match WorkfaceBounds(wf)
    case None => None
    case Some(b) => Some(GoafAt(b, progress, direction, trig))
  }

  /** The goaf polygon over known workface bounds. */
  function GoafAt(b: Bounds, progress: real, direction: real, trig: Trig): (g: seq<Point>)
    ensures |g| == 4
  {
    var front := FrontLineAt(b, progress, direction, trig);
    var angle := DirectionRad(direction, trig);
    var center := Point((b.minX + b.maxX) / 2.0, (b.minY + b.maxY) / 2.0);
    var back := b.minX;
    var backCenter := Point(center.x - trig.cos(angle) * (center.x - back),
                            center.y - trig.sin(angle) * (center.x - back));
    var backLine := Face(backCenter, angle + trig.pi / 2.0, b.maxY - b.minY, trig);
    [backLine.start, backLine.end, front.end, front.start]
  }

  /** A band of fixed depth in front of or behind the face. */
  datatype Zone = Zone(distance: real, frontLine: Line)

  /** stressZone: 50 m ahead of the face. */
  function StressZone(wf: Option<Workface>, progress: real, direction: real, trig: Trig): (z: Option<Zone>)
    ensures z.None? <==> WorkfaceBounds(wf).None?
    ensures z.Some? ==> z.value.distance == 50.0 &&
                        Some(z.value.frontLine) == FrontLine(wf, progress, direction, trig)
  {
    match FrontLine(wf, progress, direction, trig)
    case None => None
    case Some(l) => Some(Zone(50.0, l))
  }

  /** reliefZone: 30 m behind the face. */
  function ReliefZone(wf: Option<Workface>, progress: real, direction: real, trig: Trig): (z: Option<Zone>)
    ensures z.None? <==> WorkfaceBounds(wf).None?
    ensures z.Some? ==> z.value.distance == 30.0 &&
                        Some(z.value.frontLine) == FrontLine(wf, progress, direction, trig)
  {
    match FrontLine(wf, progress, direction, trig)
    case None => None
    case Some(l) => Some(Zone(30.0, l))
  }

  /** All derived geometry is absent exactly when there is no workface, or
      it has neither bounds nor points. */
  lemma GeometryAbsentWithoutWorkface(wf: Option<Workface>, progress: real, direction: real, trig: Trig)
    ensures (wf.None? || (wf.value.bounds.None? && |wf.value.points| == 0)) <==>
              && FrontLine(wf, progress, direction, trig).None?
              && GoafArea(wf, progress, direction, trig).None?
              && StressZone(wf, progress, direction, trig).None?
              && ReliefZone(wf, progress, direction, trig).None?
              && WorkfaceCenter(wf).None?
  {
  }

  /** The front line's centre is the midpoint of its ends, its nominal
      length is the workface's north-south extent, and when cos and sin of
      its angle obey cos^2 + sin^2 = 1 its ends are exactly that length
      apart. */
  lemma FrontLineSymmetric(b: Bounds, progress: real, direction: real, trig: Trig)
    ensures var l := FrontLineAt(b, progress, direction, trig);
            && l.length == b.maxY - b.minY
            && l.center == Point((l.start.x + l.end.x) / 2.0, (l.start.y + l.end.y) / 2.0)
            && (UnitAt(trig, l.angle) ==> Dist2(l.end, l.start) == l.length * l.length)
  {
    var l := FrontLineAt(b, progress, direction, trig);
    FaceSymmetric(l.center, l.angle, l.length, trig);
  }

  /** The face's centre has moved from the start point (min_x, centre y) by
      the mined share of the east-west width, when cos and sin of the
      direction obey cos^2 + sin^2 = 1. */
  lemma FrontLineAdvance(b: Bounds, progress: real, direction: real, trig: Trig)
    requires UnitAt(trig, DirectionRad(direction, trig))
    ensures var d := (b.maxX - b.minX) * (progress / 100.0);
            Dist2(FrontLineAt(b, progress, direction, trig).center,
                  Point(b.minX, (b.minY + b.maxY) / 2.0)) == d * d
  {
    var a := DirectionRad(direction, trig);
    var d := (b.maxX - b.minX) * (progress / 100.0);
    var start := Point(b.minX, (b.minY + b.maxY) / 2.0);
    DisplacedBy(start, trig.cos(a), trig.sin(a), d);
  }

  /** The front line and the goaf read the workface's centre and length as
      `workfaceCenter` and `workfaceLength` give them: the face is
      `workfaceLength` long, its centre starts at (min_x, centre y), and the
      back line is a face of the same length through the centre pulled back
      by centre x − min_x against the direction. */
  lemma GeometryReadsCenterAndLength(wf: Option<Workface>, progress: real, direction: real, trig: Trig)
    ensures FrontLine(wf, progress, direction, trig).Some? <==> WorkfaceCenter(wf).Some?
    ensures FrontLine(wf, progress, direction, trig).Some? ==>
              var l := FrontLine(wf, progress, direction, trig).value;
              var g := GoafArea(wf, progress, direction, trig).value;
              FaceFromCenter(l, g, WorkfaceBounds(wf).value, WorkfaceCenter(wf).value,
                             WorkfaceLength(wf), progress, direction, trig)
  {
    match WorkfaceBounds(wf)
    case None =>
    case Some(b) =>
      FrontLineFromCenter(b, progress, direction, trig);
  }

  /** The front line l and goaf g over bounds b, as built from the centre c
      and the length len. */
  ghost predicate FaceFromCenter(l: Line, g: seq<Point>, b: Bounds, c: Point, len: real,
                                 progress: real, direction: real, trig: Trig)
  {
    var a := DirectionRad(direction, trig);
    var d := (b.maxX - b.minX) * (progress / 100.0);
    var backCenter := Point(c.x - trig.cos(a) * (c.x - b.minX), c.y - trig.sin(a) * (c.x - b.minX));
    && l.length == len
    && l.center == Point(b.minX + trig.cos(a) * d, c.y + trig.sin(a) * d)
    && l == Face(l.center, a + trig.pi / 2.0, len, trig)
    && |g| == 4
    && g[0] == Face(backCenter, a + trig.pi / 2.0, len, trig).start
    && g[1] == Face(backCenter, a + trig.pi / 2.0, len, trig).end
  }

  /** FrontLineAt and GoafAt over bounds b agree with FaceFromCenter at the
      bounds' midpoint and north-south extent. */
  lemma FrontLineFromCenter(b: Bounds, progress: real, direction: real, trig: Trig)
    ensures FaceFromCenter(FrontLineAt(b, progress, direction, trig), GoafAt(b, progress, direction, trig),
                           b, Point((b.minX + b.maxX) / 2.0, (b.minY + b.maxY) / 2.0), b.maxY - b.minY,
                           progress, direction, trig)
  {
    var c := Point((b.minX + b.maxX) / 2.0, (b.minY + b.maxY) / 2.0);
    var a := DirectionRad(direction, trig);
    var backCenter := Point(c.x - trig.cos(a) * (c.x - b.minX), c.y - trig.sin(a) * (c.x - b.minX));
    var back := Face(backCenter, a + trig.pi / 2.0, b.maxY - b.minY, trig);
    var front := FrontLineAt(b, progress, direction, trig);
    var g := GoafAt(b, progress, direction, trig);
    assert g[0] == back.start;
    assert g[1] == back.end;
  }

  /** The goaf polygon ends with the front line's end and then its start. */
  lemma GoafClosesOnFront(b: Bounds, progress: real, direction: real, trig: Trig)
    ensures var g := GoafAt(b, progress, direction, trig);
            var l := FrontLineAt(b, progress, direction, trig);
            g[2] == l.end && g[3] == l.start
  {
  }

  /** At direction 90 (angle 0) the face is the north-south segment at
      x = min_x + width * progress / 100, and the goaf is the rectangle from
      min_x to it: the eastward sweep. */
  lemma EastwardSweep(b: Bounds, progress: real, trig: Trig)
    requires trig.cos(0.0) == 1.0 && trig.sin(0.0) == 0.0
    requires trig.cos(trig.pi / 2.0) == 0.0 && trig.sin(trig.pi / 2.0) == 1.0
    ensures var xf := b.minX + (b.maxX - b.minX) * (progress / 100.0);
            && FrontLineAt(b, progress, 90.0, trig).start == Point(xf, b.minY)
            && FrontLineAt(b, progress, 90.0, trig).end == Point(xf, b.maxY)
            && GoafAt(b, progress, 90.0, trig)
               == [Point(b.minX, b.minY), Point(b.minX, b.maxY), Point(xf, b.maxY), Point(xf, b.minY)]
  {
    var xf := b.minX + (b.maxX - b.minX) * (progress / 100.0);
    var cy := (b.minY + b.maxY) / 2.0;
    var len := b.maxY - b.minY;
    var up := trig.pi / 2.0;
    assert DirectionRad(90.0, trig) == 0.0;
    assert 0.0 + up == up;
    var l := FrontLineAt(b, progress, 90.0, trig);
    assert l == Face(Point(xf, cy), up, len, trig);
    var back := Face(Point(b.minX, cy), up, len, trig);
    assert back.start == Point(b.minX, b.minY) && back.end == Point(b.minX, b.maxY);
  }

  // ---------------------------------------------------------------------
  // The playback state machine

  /** A registered onProgress callback, identified by a name. */
  type Listener = string

  /** One call of the progress callback with the progress it receives. */
  datatype Notification = Notification(listener: Listener, progress: real)

  /** The reactive `state` record with the callback slot beside it. */
  class Simulation {
    const config: Config
    var isPlaying: bool
    var progress: real
    var direction: real
    var playbackSpeed: real
    var lastFrameTime: real
    var animationId: Option<FrameId>
    var listener: Option<Listener>

    /** The ranges the controls keep: progress a percentage, the direction
        in [0, 360), the speed multiplier in [0.1, 10]. */
    predicate Valid()
      reads this
    {
      && 0.0 <= progress <= 100.0
      && 0.0 <= direction < 360.0
      && 0.1 <= playbackSpeed <= 10.0
    }

    constructor (opts: SimOptions)
      ensures config == MakeConfig(opts)
      ensures isPlaying == config.autoPlay
      ensures progress == 0.0 && direction == 0.0 && playbackSpeed == 1.0
      ensures lastFrameTime == 0.0 && animationId == None && listener == None
      ensures Valid()
    {
      config := MakeConfig(opts);
      isPlaying := opts.autoPlay == Some(true);
      progress, direction, playbackSpeed := 0.0, 0.0, 1.0;
      lastFrameTime, animationId, listener := 0.0, None, None;
    }

    /** The progress one frame adds after dt milliseconds. */
    function ProgressDelta(dt: real): (delta: real)
      reads this`playbackSpeed
      ensures dt == 0.0 ==> delta == 0.0
      ensures dt == 1000.0 ==> delta == config.progressPerSecond * playbackSpeed
      ensures dt >= 0.0 && config.progressPerSecond >= 0.0 && playbackSpeed >= 0.0 ==> delta >= 0.0
    {
      if dt >= 0.0 && config.progressPerSecond >= 0.0 && playbackSpeed >= 0.0 then
        DeltaNonneg(dt, config.progressPerSecond, playbackSpeed);
        (dt / 1000.0) * config.progressPerSecond * playbackSpeed
      else (dt / 1000.0) * config.progressPerSecond * playbackSpeed
    }

    /** seek: progress becomes v clamped to [0, 100]. */
    method Seek(v: real)
      modifies this`progress
      ensures progress == Clamp(v, 0.0, 100.0)
      ensures 0.0 <= progress <= 100.0
    {
      progress := Max(0.0, Min(100.0, v));
    }

    method SkipToStart()
      modifies this`progress
      ensures progress == 0.0
    {
      Seek(0.0);
    }

    method SkipToEnd()
      modifies this`progress
      ensures progress == 100.0
    {
      Seek(100.0);
    }

    /** stepForward: two percent on, never past 100. */
    method StepForward()
      modifies this`progress
      ensures progress == Clamp(old(progress) + 2.0, 0.0, 100.0)
    {
      Seek(progress + 2.0);
    }

    /** stepBackward: two percent back, never below 0. */
    method StepBackward()
      modifies this`progress
      ensures progress == Clamp(old(progress) - 2.0, 0.0, 100.0)
    {
      Seek(progress - 2.0);
    }

    /** setDirection: the angle reduced into [0, 360). */
    method SetDirection(angle: real)
      modifies this`direction
      ensures direction == NormalizeDirection(angle)
      ensures 0.0 <= direction < 360.0 && WholeTurns(angle - direction)
    {
      var d := JsRem360(angle);
      if d < 0.0 {
        d := d + 360.0;
      }
      direction := d;
    }

    /** setPlaybackSpeed: the multiplier clamped to [0.1, 10]. */
    method SetPlaybackSpeed(speed: real)
      modifies this`playbackSpeed
      ensures playbackSpeed == Clamp(speed, 0.1, 10.0)
    {
      playbackSpeed := Max(0.1, Min(10.0, speed));
    }

    /** onProgress: the callback that later frames report to. */
    method OnProgress(callback: Option<Listener>)
      modifies this`listener
      ensures listener == callback
    {
      listener := callback;
    }

    /** startAnimationLoop, one frame at host time `now`: idle unless
        playing; otherwise progress advances by elapsed time x rate x speed,
        stopping at 100 and ending playback, or else a next frame is
        scheduled with the handle the host returns. The callback, if any,
        hears the new progress. */
    method Tick(now: real, frame: FrameId) returns (notified: Option<Notification>)
      modifies this`progress, this`isPlaying, this`lastFrameTime, this`animationId
      ensures !old(isPlaying) ==>
                && progress == old(progress) && !isPlaying && lastFrameTime == old(lastFrameTime)
                && animationId == old(animationId) && notified == None
      ensures old(isPlaying) ==>
                var next := old(progress) + old(ProgressDelta(now - lastFrameTime));
                && lastFrameTime == now
                && (next >= 100.0 ==> progress == 100.0 && !isPlaying && animationId == old(animationId))
                && (next < 100.0 ==> progress == next && isPlaying && animationId == Some(frame))
                && notified == (if listener.Some? then Some(Notification(listener.value, progress)) else None)
      ensures old(Valid()) && now >= old(lastFrameTime) && config.progressPerSecond >= 0.0 ==> Valid()
    {
      if !isPlaying {
        return None;
      }
      var deltaTime := now - lastFrameTime;
      ghost var delta := ProgressDelta(deltaTime);
      if Valid() && deltaTime >= 0.0 && config.progressPerSecond >= 0.0 {
        DeltaNonneg(deltaTime, config.progressPerSecond, playbackSpeed);
      }
      lastFrameTime := now;
      var progressDelta := (deltaTime / 1000.0) * config.progressPerSecond * playbackSpeed;
      assert progressDelta == delta;
      var newProgress := progress + progressDelta;
      if newProgress >= 100.0 {
        progress := 100.0;
        isPlaying := false;
      } else {
        progress := newProgress;
        animationId := Some(frame);
      }
      notified := if listener.Some? then Some(Notification(listener.value, progress)) else None;
    }

    /** play: restart from 0 when complete, start playing at host time
        `start`, and run the first frame at host time `now`. */
    method Play(start: real, now: real, frame: FrameId) returns (notified: Option<Notification>)
      modifies this`progress, this`isPlaying, this`lastFrameTime, this`animationId
      ensures var from := if old(progress) >= 100.0 then 0.0 else old(progress);
              var next := from + ProgressDelta(now - start);
              && lastFrameTime == now
              && (next >= 100.0 ==> progress == 100.0 && !isPlaying && animationId == old(animationId))
              && (next < 100.0 ==> progress == next && isPlaying && animationId == Some(frame))
              && notified == (if listener.Some? then Some(Notification(listener.value, progress)) else None)
      ensures old(Valid()) && now >= start && config.progressPerSecond >= 0.0 ==> Valid()
    {
      if IsComplete(progress) {
        progress := 0.0;
      }
      isPlaying := true;
      lastFrameTime := start;
      notified := Tick(now, frame);
    }

    /** pause: stop playing and drop the pending frame handle. Pausing twice
        is pausing once. */
    method Pause()
      modifies this`isPlaying, this`animationId
      ensures !isPlaying && animationId == None
    {
      isPlaying := false;
      if animationId.Some? {
        animationId := None;
      }
    }

    /** togglePlay: pause when playing, play otherwise. */
    method TogglePlay(start: real, now: real, frame: FrameId) returns (notified: Option<Notification>)
      modifies this`progress, this`isPlaying, this`lastFrameTime, this`animationId
      ensures old(isPlaying) ==>
                && !isPlaying && animationId == None && notified == None
                && progress == old(progress) && lastFrameTime == old(lastFrameTime)
      ensures !old(isPlaying) ==>
                var from := if old(progress) >= 100.0 then 0.0 else old(progress);
                var next := from + ProgressDelta(now - start);
                && lastFrameTime == now
                && (next >= 100.0 ==> progress == 100.0 && !isPlaying && animationId == old(animationId))
                && (next < 100.0 ==> progress == next && isPlaying && animationId == Some(frame))
                && notified == (if listener.Some? then Some(Notification(listener.value, progress)) else None)
      ensures old(Valid()) && now >= start && config.progressPerSecond >= 0.0 ==> Valid()
    {
      if isPlaying {
        Pause();
        notified := None;
      } else {
        notified := Play(start, now, frame);
      }
    }
  }

  /** A frame's progress increment is never negative for a non-negative
      elapsed time, rate and speed. */
  lemma DeltaNonneg(dt: real, rate: real, speed: real)
    requires dt >= 0.0 && rate >= 0.0 && speed >= 0.0
    ensures (dt / 1000.0) * rate * speed >= 0.0
  {
    var a := dt / 1000.0;
    assert a >= 0.0;
    assert a * rate >= 0.0;
    assert (a * rate) * speed >= 0.0;
  }
}
