/** The drawing half of frontend/src/composables/useIndicatorCanvas.js:
    the heat-map grid with viewport culling and its line overlay, the
    contour pass (row-major flattening, interior thresholds and the
    index-to-world map around d3), the borehole markers with their hover
    and focus styling, hit-testing by nearest marker, and grid sampling.

    A canvas context is modelled by the sequence of commands issued to it.
    The d3 functions (ticks, contours, interpolateRgbBasis) and Math.sin are
    parameters. The `worldToScreen` callback the source receives is the
    viewport's map, Viewport.WorldToScreen at the current view. */
module IndicatorCanvas {
  import opened Common
  import opened Viewport
  import opened IndicatorColor

  /** The canvas 2-D context calls the renderer issues, with the state
      assignments (strokeStyle, fillStyle, lineWidth, globalAlpha) as
      commands of their own. */
  datatype Command =
    | Save
    | Restore
    | SetStrokeStyle(style: string)
    | SetFillStyle(style: string)
    | SetLineWidth(width: real)
    | SetAlpha(alpha: real)
    | BeginPath
    | MoveTo(x: real, y: real)
    | LineTo(x: real, y: real)
    | ClosePath
    | Stroke
    | Fill
    | FillRect(x: real, y: real, w: real, h: real)
    | Arc(cx: real, cy: real, radius: real)

  /** A grid of metric values, row by row; rows may be ragged. */
  type Grid = seq<seq<real>>

  /** `grid[0]?.length || 0`: the column count is read off the first row. */
  function Cols(grid: Grid): nat {
    if |grid| == 0 then 0 else |grid[0]|
  }

  /** `Number(grid[i][j] || 0)`: a cell missing from a short row reads as 0. */
  function Cell(grid: Grid, i: int, j: int): real {
    if 0 <= i < |grid| && 0 <= j < |grid[i]| then grid[i][j] else 0.0
  }

  // ---------------------------------------------------------------------
  // Row-major flattening

  lemma MulAtLeast(k: int, c: int)
    requires k >= 1 && c >= 0
    ensures k * c >= c
  {
    assert (k - 1) * c >= 0;
  }

  /** Cell (i, j) of a grid with `cols` columns sits at i * cols + j, and that
      position determines i and j back. */
  lemma RowMajorDivMod(i: int, j: int, cols: int)
    requires 0 <= j < cols
    ensures (i * cols + j) / cols == i && (i * cols + j) % cols == j
  {
    var n := i * cols + j;
    var q, r := n / cols, n % cols;
    assert n == q * cols + r;
    assert (i - q) * cols == r - j;
    if i > q {
      MulAtLeast(i - q, cols);
    } else if i < q {
      MulAtLeast(q - i, cols);
    }
  }

  lemma MulNonneg(a: int, b: int)
    requires a >= 0 && b >= 0
    ensures a * b >= 0
  {
  }

  lemma RowMajorBound(i: int, j: int, rows: int, cols: int)
    requires 0 <= i < rows && 0 <= j < cols
    ensures 0 <= i * cols + j < rows * cols
  {
    MulNonneg(i, cols);
    MulNonneg(rows - 1 - i, cols);
    assert (rows - 1 - i) * cols == rows * cols - i * cols - cols;
  }

  /** The `values` array drawContours hands to d3.contours: the grid read
      row by row, `cols` cells per row. */
  function RowMajor(grid: Grid, cols: nat): (values: seq<real>)
    requires cols > 0
    ensures |values| == |grid| * cols
  {
    seq(|grid| * cols, k requires 0 <= k < |grid| * cols => Cell(grid, k / cols, k % cols))
  }

  /** values[i * cols + j] is grid[i][j]. */
  lemma RowMajorIndex(grid: Grid, cols: nat, i: int, j: int)
    requires cols > 0 && 0 <= i < |grid| && 0 <= j < cols
    ensures 0 <= i * cols + j < |RowMajor(grid, cols)|
    ensures RowMajor(grid, cols)[i * cols + j] == Cell(grid, i, j)
  {
    RowMajorBound(i, j, |grid|, cols);
    RowMajorDivMod(i, j, cols);
  }

  /** The flattening loop of drawContours, with its running `idx`; by
      RowMajorIndex, values[i * cols + j] is then the cell (i, j). */
  method FlattenGrid(grid: Grid, cols: nat) returns (values: array<real>)
    requires cols > 0
    ensures values[..] == RowMajor(grid, cols)
  {
    ghost var flat := RowMajor(grid, cols);
    values := new real[|grid| * cols];
    var idx := 0;
    for i := 0 to |grid|
      invariant idx == i * cols && idx <= values.Length == |flat|
      invariant forall k :: 0 <= k < idx ==> values[k] == flat[k]
    {
      for j := 0 to cols
        invariant idx == i * cols + j && idx <= values.Length
        invariant forall k :: 0 <= k < idx ==> values[k] == flat[k]
      {
        RowMajorIndex(grid, cols, i, j);
        values[idx] := Cell(grid, i, j);
        idx := idx + 1;
      }
      assert idx == (i + 1) * cols;
    }
    assert values[..] == flat;
  }

  // ---------------------------------------------------------------------
  // Contours

  /** One ring of a contour polygon, in grid-index coordinates
      (x = column, y = row). */
  type Ring = seq<Point>

  /** A polygon: its outer ring followed by its holes. */
  type Polygon = seq<Ring>

  /** A contour as d3.contours returns it: the threshold and a multipolygon. */
  datatype Contour = Contour(value: real, coordinates: seq<Polygon>)

  /** The renderer options drawGrid and drawContours read. A field that is
      absent, zero or empty takes the source's default. */
  datatype Options = Options(showContours: Option<bool>, contourLevels: Option<real>,
                             contourColor: Option<string>)

  /** `Math.max(5, Number(options.contourLevels || 9))`. */
  function ContourLevels(opts: Options): (n: real)
    ensures n >= 5.0
    ensures opts.contourLevels.None? || opts.contourLevels == Some(0.0) ==> n == 9.0
    ensures opts.contourLevels.Some? && opts.contourLevels.value >= 5.0 ==> n == opts.contourLevels.value
  {
    var given := if opts.contourLevels.None? || opts.contourLevels.value == 0.0 then 9.0
                 else opts.contourLevels.value;
    Max(5.0, given)
  }

  /** `ticks.slice(1, -1)`: the ticks without the first and the last. */
  function Thresholds(ticks: seq<real>): (th: seq<real>)
    ensures |ticks| <= 2 ==> th == []
    ensures |ticks| > 2 ==> |th| == |ticks| - 2
    ensures forall k :: 0 <= k < |th| ==> th[k] == ticks[k + 1]
  {
    if |ticks| <= 2 then [] else ticks[1..|ticks| - 1]
  }

  /** `options.contourColor || 'rgba(15,23,42,0.32)'`. */
  function ContourStroke(opts: Options): string {
    if opts.contourColor.None? || opts.contourColor.value == "" then "rgba(15,23,42,0.32)"
    else opts.contourColor.value
  }

  /** Contour lines get thicker when zoomed in... */
  function ContourLineWidth(scale: real): real {
    if scale > 2.0 then 1.2 else 0.9
  }

  /** ...and fainter when zoomed out. */
  function ContourAlpha(scale: real): real {
    if scale < 0.65 then 0.45 else 0.7
  }

  /** A contour vertex in grid-index coordinates mapped to world
      coordinates: column 0 is min_x, row 0 is max_y, and spans below 1e-6
      are widened to 1e-6. */
  function IndexToWorld(b: Bounds, rows: int, cols: int, pt: Point): Point {
    var worldW := Max(b.maxX - b.minX, 0.000001);
    var worldH := Max(b.maxY - b.minY, 0.000001);
    Point(b.minX + (pt.x / Max((cols - 1) as real, 1.0)) * worldW,
          b.maxY - (pt.y / Max((rows - 1) as real, 1.0)) * worldH)
  }

  /** The first grid corner lands on (min_x, max_y) and the last on
      (max_x, min_y) whenever the bounds are not degenerate. */
  lemma IndexToWorldCorners(b: Bounds, rows: int, cols: int)
    requires rows >= 2 && cols >= 2
    ensures IndexToWorld(b, rows, cols, Point(0.0, 0.0)) == Point(b.minX, b.maxY)
    ensures b.maxX - b.minX >= 0.000001 && b.maxY - b.minY >= 0.000001 ==>
              IndexToWorld(b, rows, cols, Point((cols - 1) as real, (rows - 1) as real))
              == Point(b.maxX, b.minY)
  {
    DivSelf((cols - 1) as real);
    DivSelf((rows - 1) as real);
  }

  /** A grid vertex inside the index range lands inside the bounds. */
  lemma IndexToWorldInBounds(b: Bounds, rows: int, cols: int, pt: Point)
    requires rows >= 2 && cols >= 2
    requires 0.0 <= pt.x <= (cols - 1) as real && 0.0 <= pt.y <= (rows - 1) as real
    requires b.maxX - b.minX >= 0.000001 && b.maxY - b.minY >= 0.000001
    ensures var w := IndexToWorld(b, rows, cols, pt);
            b.minX <= w.x <= b.maxX && b.minY <= w.y <= b.maxY
  {
    var cx := (cols - 1) as real;
    var cy := (rows - 1) as real;
    AxisWithin(b.minX, b.maxX, pt.x, cx);
    AxisWithin(b.minY, b.maxY, pt.y, cy);
    assert Max(cx, 1.0) == cx && Max(cy, 1.0) == cy;
    assert Max(b.maxX - b.minX, 0.000001) == b.maxX - b.minX;
    assert Max(b.maxY - b.minY, 0.000001) == b.maxY - b.minY;
  }

  /** Moving the share p / c of [lo, hi] in from either end stays inside
      [lo, hi] when p lies in [0, c]. */
  lemma AxisWithin(lo: real, hi: real, p: real, c: real)
    requires lo <= hi && 0.0 <= p <= c && c > 0.0
    ensures lo <= lo + (p / c) * (hi - lo) <= hi
    ensures lo <= hi - (p / c) * (hi - lo) <= hi
  {
    DivNonneg(p, c);
    DivAtMostOne(p, c);
    ScaledFraction(hi - lo, p / c);
    assert (p / c) * (hi - lo) == (hi - lo) * (p / c);
  }

  lemma DivAtMostOne(a: real, c: real)
    requires 0.0 <= a <= c && c > 0.0
    ensures a / c <= 1.0
  {
    ScaledOrder(a, c, c, 1.0);
    assert c / c == 1.0;
  }

  /** Larger column indices are further east, larger row indices further
      south. */
  lemma IndexToWorldMonotone(b: Bounds, rows: int, cols: int, p: Point, q: Point)
    requires p.x <= q.x && p.y <= q.y
    ensures IndexToWorld(b, rows, cols, p).x <= IndexToWorld(b, rows, cols, q).x
    ensures IndexToWorld(b, rows, cols, p).y >= IndexToWorld(b, rows, cols, q).y
  {
    var cx := Max((cols - 1) as real, 1.0);
    var cy := Max((rows - 1) as real, 1.0);
    var worldW := Max(b.maxX - b.minX, 0.000001);
    var worldH := Max(b.maxY - b.minY, 0.000001);
    ScaledOrder(p.x, q.x, cx, worldW);
    ScaledOrder(p.y, q.y, cy, worldH);
    var wp := IndexToWorld(b, rows, cols, p);
    var wq := IndexToWorld(b, rows, cols, q);
    assert wp.y == b.maxY - (p.y / cy) * worldH && wq.y == b.maxY - (q.y / cy) * worldH;
    assert wp.x == b.minX + (p.x / cx) * worldW && wq.x == b.minX + (q.x / cx) * worldW;
  }

  /** Dividing by and then multiplying with positive numbers keeps order. */
  lemma ScaledOrder(a: real, b: real, c: real, w: real)
    requires a <= b && c > 0.0 && w > 0.0
    ensures (a / c) * w <= (b / c) * w
  {
    assert b / c - a / c == (b - a) / c;
    DivNonneg(b - a, c);
    MulNonnegReal((b - a) / c, w);
    assert (b / c) * w - (a / c) * w == ((b - a) / c) * w;
  }

  /** What a ring vertex is drawn at: the world position under the view. */
  datatype Frame = Frame(bounds: Bounds, view: View, rows: nat, cols: nat)

  function VertexScreen(f: Frame, pt: Point): Point {
    var w := IndexToWorld(f.bounds, f.rows, f.cols, pt);
    WorldToScreen(f.view, w.x, w.y, Some(f.bounds))
  }

  /** The path of a ring: moveTo the first vertex, lineTo each later one. */
  function PathStep(f: Frame, ring: Ring, i: nat): Command
    requires i < |ring|
  {
    var p := VertexScreen(f, ring[i]);
    if i == 0 then MoveTo(p.x, p.y) else LineTo(p.x, p.y)
  }

  function PathSteps(f: Frame, ring: Ring, n: nat): (cmds: seq<Command>)
    requires n <= |ring|
    ensures |cmds| == n
    ensures forall k :: 0 <= k < n ==> cmds[k] == PathStep(f, ring, k)
  {
    if n == 0 then [] else PathSteps(f, ring, n - 1) + [PathStep(f, ring, n - 1)]
  }

  /** A ring with fewer than two vertices is skipped; any other is stroked
      as a closed path. */
  function RingCommands(f: Frame, ring: Ring): (cmds: seq<Command>)
    ensures cmds == [] <==> |ring| < 2
    ensures |ring| >= 2 ==>
              && |cmds| == |ring| + 3 && cmds[0] == BeginPath
              && cmds[1] == MoveTo(VertexScreen(f, ring[0]).x, VertexScreen(f, ring[0]).y)
              && (forall k :: 1 <= k < |ring| ==>
                    cmds[k + 1] == LineTo(VertexScreen(f, ring[k]).x, VertexScreen(f, ring[k]).y))
              && cmds[|ring| + 1] == ClosePath && cmds[|ring| + 2] == Stroke
  {
    if |ring| < 2 then [] else [BeginPath] + PathSteps(f, ring, |ring|) + [ClosePath, Stroke]
  }

  function PolygonCommands(f: Frame, poly: Polygon, n: nat): seq<Command>
    requires n <= |poly|
  {
    if n == 0 then [] else PolygonCommands(f, poly, n - 1) + RingCommands(f, poly[n - 1])
  }

  function MultiPolygonCommands(f: Frame, polys: seq<Polygon>, n: nat): seq<Command>
    requires n <= |polys|
  {
    if n == 0 then []
    else MultiPolygonCommands(f, polys, n - 1) + PolygonCommands(f, polys[n - 1], |polys[n - 1]|)
  }

  function ContourSetCommands(f: Frame, cs: seq<Contour>, n: nat): seq<Command>
    requires n <= |cs|
  {
    if n == 0 then []
    else ContourSetCommands(f, cs, n - 1)
         + MultiPolygonCommands(f, cs[n - 1].coordinates, |cs[n - 1].coordinates|)
  }

  /** The thresholds drawContours asks d3 for over the safe range. */
  function ContourThresholds(stats: Option<Stats>, opts: Options,
                             ticks: (real, real, real) -> seq<real>): seq<real> {
    var r := SafeStats(stats);
    Thresholds(ticks(r.min, r.max, ContourLevels(opts)))
  }

  /** Everything drawContours issues: nothing on a grid smaller than 2 x 2 or
      when no interior threshold remains; otherwise the saved style, every
      ring of every contour, and the restore. */
  function ContoursDrawing(grid: Grid, b: Bounds, view: View, stats: Option<Stats>, opts: Options,
                           ticks: (real, real, real) -> seq<real>,
                           contours: (seq<real>, nat, nat, seq<real>) -> seq<Contour>): seq<Command>
  {
    var rows := |grid|;
    var cols := Cols(grid);
    if rows < 2 || cols < 2 then []
    else
      var th := ContourThresholds(stats, opts, ticks);
      if |th| == 0 then []
      else
        var cs := contours(RowMajor(grid, cols), cols, rows, th);
        [Save, SetStrokeStyle(ContourStroke(opts)), SetLineWidth(ContourLineWidth(view.scale)),
         SetAlpha(ContourAlpha(view.scale))]
        + ContourSetCommands(Frame(b, view, rows, cols), cs, |cs|)
        + [Restore]
  }

  /** drawContours draws nothing exactly when the grid is smaller than 2 x 2
      or slicing off the end ticks leaves no threshold; whatever it draws is
      bracketed by save and restore, with the zoom-dependent line width and
      opacity. */
  lemma ContoursDrawingShape(grid: Grid, b: Bounds, view: View, stats: Option<Stats>, opts: Options,
                             ticks: (real, real, real) -> seq<real>,
                             contours: (seq<real>, nat, nat, seq<real>) -> seq<Contour>)
    ensures var cmds := ContoursDrawing(grid, b, view, stats, opts, ticks, contours);
            (cmds == []) <==>
              (|grid| < 2 || Cols(grid) < 2 || |ContourThresholds(stats, opts, ticks)| == 0)
    ensures var cmds := ContoursDrawing(grid, b, view, stats, opts, ticks, contours);
            cmds != [] ==>
              && |cmds| >= 5 && cmds[0] == Save && cmds[|cmds| - 1] == Restore
              && cmds[1] == SetStrokeStyle(ContourStroke(opts))
              && cmds[2] == SetLineWidth(if view.scale > 2.0 then 1.2 else 0.9)
              && cmds[3] == SetAlpha(if view.scale < 0.65 then 0.45 else 0.7)
  {
  }

  /** The innermost loop of drawContours: one ring of two or more vertices
      as a closed, stroked path. */
  method StrokeRing(f: Frame, ring: Ring) returns (cmds: seq<Command>)
    requires |ring| >= 2
    ensures cmds == RingCommands(f, ring)
  {
    cmds := [BeginPath];
    for k := 0 to |ring|
      invariant cmds == [BeginPath] + PathSteps(f, ring, k)
    {
      var p := VertexScreen(f, ring[k]);
      if k == 0 {
        cmds := cmds + [MoveTo(p.x, p.y)];
      } else {
        cmds := cmds + [LineTo(p.x, p.y)];
      }
    }
    cmds := cmds + [ClosePath, Stroke];
  }

  /** The loop of drawContours over the rings of one polygon. */
  method StrokePolygon(f: Frame, poly: Polygon) returns (cmds: seq<Command>)
    ensures cmds == PolygonCommands(f, poly, |poly|)
  {
    cmds := [];
    for ri := 0 to |poly|
      invariant cmds == PolygonCommands(f, poly, ri)
    {
      var ring := poly[ri];
      if |ring| >= 2 {
        var path := StrokeRing(f, ring);
        cmds := cmds + path;
      }
    }
  }

  /** The loop of drawContours over the polygons of one contour. */
  method StrokeMultiPolygon(f: Frame, polys: seq<Polygon>) returns (cmds: seq<Command>)
    ensures cmds == MultiPolygonCommands(f, polys, |polys|)
  {
    cmds := [];
    for pi := 0 to |polys|
      invariant cmds == MultiPolygonCommands(f, polys, pi)
    {
      var rings := StrokePolygon(f, polys[pi]);
      cmds := cmds + rings;
    }
  }

  /** The outermost loop of drawContours, over the contours d3 returns. */
  method StrokeContours(f: Frame, cs: seq<Contour>) returns (cmds: seq<Command>)
    ensures cmds == ContourSetCommands(f, cs, |cs|)
  {
    cmds := [];
    for ci := 0 to |cs|
      invariant cmds == ContourSetCommands(f, cs, ci)
    {
      var polys := StrokeMultiPolygon(f, cs[ci].coordinates);
      cmds := cmds + polys;
    }
  }

  /** drawContours: the guards, the flattening, the calls into d3, then the
      styled strokes of every ring. */
  method DrawContours(grid: Grid, b: Bounds, view: View, stats: Option<Stats>, opts: Options,
                      ticks: (real, real, real) -> seq<real>,
                      contours: (seq<real>, nat, nat, seq<real>) -> seq<Contour>)
    returns (cmds: seq<Command>)
    ensures cmds == ContoursDrawing(grid, b, view, stats, opts, ticks, contours)
  {
    var rows := |grid|;
    var cols := Cols(grid);
    if rows < 2 || cols < 2 {
      return [];
    }
    var values := FlattenGrid(grid, cols);
    var r := SafeStats(stats);
    var levels := ContourLevels(opts);
    var th := Thresholds(ticks(r.min, r.max, levels));
    if |th| == 0 {
      return [];
    }
    var cs := contours(values[..], cols, rows, th);
    var strokes := StrokeContours(Frame(b, view, rows, cols), cs);
    cmds := [Save, SetStrokeStyle(ContourStroke(opts)), SetLineWidth(ContourLineWidth(view.scale)),
             SetAlpha(ContourAlpha(view.scale))]
            + strokes + [Restore];
  }

  // ---------------------------------------------------------------------
  // The heat-map grid

  /** What drawGrid reads besides the options: the grid, the bounds, the
      view, the metric and its stats, the canvas size and the colour
      interpolator. */
  datatype GridView = GridView(grid: Grid, b: Bounds, view: View, metric: string,
                               stats: Option<Stats>, canvasW: real, canvasH: real,
                               interpolate: (seq<string>, real) -> string)

  /** drawGrid draws only a non-empty grid with at least one column. */
  predicate Drawable(g: GridView) {
    |g.grid| > 0 && Cols(g.grid) > 0
  }

  function CellW(g: GridView): real
    requires Drawable(g)
  {
    (g.b.maxX - g.b.minX) / (Cols(g.grid) as real)
  }

  function CellH(g: GridView): real
    requires Drawable(g)
  {
    (g.b.maxY - g.b.minY) / (|g.grid| as real)
  }

  function Abs(v: real): (r: real)
    ensures r >= 0.0 && (r == v || r == -v)
  {
    if v < 0.0 then -v else v
  }

  /** A screen rectangle: top-left corner, width and height. */
  datatype Rect = Rect(x: real, y: real, w: real, h: real)

  /** The screen rectangle of cell (i, j): the box spanned by the images of
      its two world corners, padded by 0.8 px so neighbours overlap. */
  function CellRect(g: GridView, i: int, j: int): (r: Rect)
    requires Drawable(g)
    ensures r.w >= 0.8 && r.h >= 0.8
  {
    Spanned(CornerNW(g, i, j), CornerSE(g, i, j))
  }

  /** The screen image of cell (i, j)'s world corner (min_x + j w, max_y - i h). */
  function CornerNW(g: GridView, i: int, j: int): Point
    requires Drawable(g)
  {
    WorldToScreen(g.view, g.b.minX + (j as real) * CellW(g), g.b.maxY - (i as real) * CellH(g), Some(g.b))
  }

  /** The screen image of the opposite corner, one cell east and south. */
  function CornerSE(g: GridView, i: int, j: int): Point
    requires Drawable(g)
  {
    WorldToScreen(g.view, g.b.minX + (j as real) * CellW(g) + CellW(g),
                  g.b.maxY - (i as real) * CellH(g) - CellH(g), Some(g.b))
  }

  /** The box spanned by two screen points, padded by 0.8 px. */
  function Spanned(p1: Point, p2: Point): Rect {
    Rect(Min(p1.x, p2.x), Min(p1.y, p2.y), Abs(p2.x - p1.x) + 0.8, Abs(p2.y - p1.y) + 0.8)
  }

  /** The culling test of drawGrid. */
  predicate Culled(r: Rect, canvasW: real, canvasH: real) {
    r.x > canvasW || r.x + r.w < 0.0 || r.y > canvasH || r.y + r.h < 0.0
  }

  predicate InRect(r: Rect, px: real, py: real) {
    r.x <= px <= r.x + r.w && r.y <= py <= r.y + r.h
  }

  /** A cell is skipped exactly when its rectangle has no point in common
      with the canvas [0, W] x [0, H]. */
  lemma CulledIffDisjoint(r: Rect, canvasW: real, canvasH: real)
    requires r.w >= 0.0 && r.h >= 0.0 && canvasW >= 0.0 && canvasH >= 0.0
    ensures Culled(r, canvasW, canvasH) <==>
              !exists px, py :: InRect(r, px, py) && 0.0 <= px <= canvasW && 0.0 <= py <= canvasH
  {
    if !Culled(r, canvasW, canvasH) {
      var px := Max(r.x, 0.0);
      var py := Max(r.y, 0.0);
      assert InRect(r, px, py) && 0.0 <= px <= canvasW && 0.0 <= py <= canvasH;
    }
  }

  lemma MulNonnegReal(a: real, b: real)
    requires a >= 0.0 && b >= 0.0
    ensures a * b >= 0.0
  {
  }

  /** With the bounds the right way round and a positive scale, a cell's
      rectangle starts at the image of its north-west corner and is the
      cell's world size times the scale, plus the padding. */
  lemma CellRectAtPositiveScale(g: GridView, i: int, j: int)
    requires Drawable(g) && g.view.scale > 0.0
    requires g.b.minX <= g.b.maxX && g.b.minY <= g.b.maxY
    ensures var p := CornerNW(g, i, j);
            CellRect(g, i, j) == Rect(p.x, p.y, CellW(g) * g.view.scale + 0.8,
                                      CellH(g) * g.view.scale + 0.8)
  {
    var s := g.view.scale;
    var p1 := CornerNW(g, i, j);
    var p2 := CornerSE(g, i, j);
    DivNonneg(g.b.maxX - g.b.minX, Cols(g.grid) as real);
    DivNonneg(g.b.maxY - g.b.minY, |g.grid| as real);
    MulNonnegReal(CellW(g), s);
    MulNonnegReal(CellH(g), s);
    assert p2.x - p1.x == CellW(g) * s;
    assert p2.y - p1.y == CellH(g) * s;
    assert Min(p1.x, p2.x) == p1.x && Abs(p2.x - p1.x) == CellW(g) * s;
    assert Min(p1.y, p2.y) == p1.y && Abs(p2.y - p1.y) == CellH(g) * s;
  }

  lemma DivNonneg(a: real, b: real)
    requires a >= 0.0 && b > 0.0
    ensures a / b >= 0.0
  {
  }

  /** Cell (i, j): its colour and rectangle, unless culled. */
  function CellCommands(g: GridView, i: int, j: int): seq<Command>
    requires Drawable(g)
  {
    var r := CellRect(g, i, j);
    if Culled(r, g.canvasW, g.canvasH) then []
    else [SetFillStyle(GetColor(g.metric, Cell(g.grid, i, j), g.stats, g.interpolate)),
          FillRect(r.x, r.y, r.w, r.h)]
  }

  function RowCells(g: GridView, i: int, n: nat): seq<Command>
    requires Drawable(g)
  {
    if n == 0 then [] else RowCells(g, i, n - 1) + CellCommands(g, i, n - 1)
  }

  function GridCells(g: GridView, n: nat): seq<Command>
    requires Drawable(g)
  {
    if n == 0 then [] else GridCells(g, n - 1) + RowCells(g, n - 1, Cols(g.grid))
  }

  /** Horizontal grid line i, from min_x to max_x. */
  function HLine(g: GridView, i: int): seq<Command>
    requires Drawable(g)
  {
    var wy := g.b.maxY - (i as real) * CellH(g);
    var s1 := WorldToScreen(g.view, g.b.minX, wy, Some(g.b));
    var s2 := WorldToScreen(g.view, g.b.maxX, wy, Some(g.b));
    [MoveTo(s1.x, s1.y), LineTo(s2.x, s2.y)]
  }

  /** Vertical grid line j, from min_y to max_y. */
  function VLine(g: GridView, j: int): seq<Command>
    requires Drawable(g)
  {
    var wx := g.b.minX + (j as real) * CellW(g);
    var s1 := WorldToScreen(g.view, wx, g.b.minY, Some(g.b));
    var s2 := WorldToScreen(g.view, wx, g.b.maxY, Some(g.b));
    [MoveTo(s1.x, s1.y), LineTo(s2.x, s2.y)]
  }

  function HLines(g: GridView, n: nat): (cmds: seq<Command>)
    requires Drawable(g)
  {
    if n == 0 then [] else HLines(g, n - 1) + HLine(g, n - 1)
  }

  function VLines(g: GridView, n: nat): (cmds: seq<Command>)
    requires Drawable(g)
  {
    if n == 0 then [] else VLines(g, n - 1) + VLine(g, n - 1)
  }

  const OverlayStroke: string := "rgba(255,255,255,0.18)"

  /** The overlay: rows + 1 horizontal and cols + 1 vertical lines in one
      stroked path. */
  function GridLines(g: GridView): seq<Command>
    requires Drawable(g)
  {
    [SetStrokeStyle(OverlayStroke), SetLineWidth(1.0), BeginPath]
    + HLines(g, |g.grid| + 1) + VLines(g, Cols(g.grid) + 1) + [Stroke]
  }

  /** Each line command pair is a moveTo followed by a lineTo; horizontal
      lines keep their screen y, vertical ones their screen x. */
  lemma {:induction false} HLinesShape(g: GridView, n: nat)
    requires Drawable(g)
    ensures |HLines(g, n)| == 2 * n
    ensures forall k :: 0 <= k < n ==>
              HLines(g, n)[2 * k].MoveTo? && HLines(g, n)[2 * k + 1].LineTo? &&
              HLines(g, n)[2 * k].y == HLines(g, n)[2 * k + 1].y
  {
    if n > 0 {
      HLinesShape(g, n - 1);
      var prev := HLines(g, n - 1);
      assert HLines(g, n) == prev + HLine(g, n - 1);
      forall k | 0 <= k < n
        ensures HLines(g, n)[2 * k].MoveTo? && HLines(g, n)[2 * k + 1].LineTo? &&
                HLines(g, n)[2 * k].y == HLines(g, n)[2 * k + 1].y
      {
        if k < n - 1 {
          assert HLines(g, n)[2 * k] == prev[2 * k];
          assert HLines(g, n)[2 * k + 1] == prev[2 * k + 1];
        }
      }
    }
  }

  lemma {:induction false} VLinesShape(g: GridView, n: nat)
    requires Drawable(g)
    ensures |VLines(g, n)| == 2 * n
    ensures forall k :: 0 <= k < n ==>
              VLines(g, n)[2 * k].MoveTo? && VLines(g, n)[2 * k + 1].LineTo? &&
              VLines(g, n)[2 * k].x == VLines(g, n)[2 * k + 1].x
  {
    if n > 0 {
      VLinesShape(g, n - 1);
      var prev := VLines(g, n - 1);
      assert VLines(g, n) == prev + VLine(g, n - 1);
      forall k | 0 <= k < n
        ensures VLines(g, n)[2 * k].MoveTo? && VLines(g, n)[2 * k + 1].LineTo? &&
                VLines(g, n)[2 * k].x == VLines(g, n)[2 * k + 1].x
      {
        if k < n - 1 {
          assert VLines(g, n)[2 * k] == prev[2 * k];
          assert VLines(g, n)[2 * k + 1] == prev[2 * k + 1];
        }
      }
    }
  }

  /** The overlay draws exactly rows + 1 horizontal and cols + 1 vertical
      segments between its three style commands and its final stroke. */
  lemma GridLinesCount(g: GridView)
    requires Drawable(g)
    ensures |GridLines(g)| == 4 + 2 * (|g.grid| + 1) + 2 * (Cols(g.grid) + 1)
  {
    HLinesShape(g, |g.grid| + 1);
    VLinesShape(g, Cols(g.grid) + 1);
  }

  /** Everything drawGrid issues for a drawable grid: the cells, then the
      contours unless `showContours` is false, then the overlay when the
      scale exceeds 3.2. */
  function GridDrawing(g: GridView, opts: Options, ticks: (real, real, real) -> seq<real>,
                       contours: (seq<real>, nat, nat, seq<real>) -> seq<Contour>): seq<Command>
    requires Drawable(g)
  {
    GridCells(g, |g.grid|)
    + (if opts.showContours != Some(false)
       then ContoursDrawing(g.grid, g.b, g.view, g.stats, opts, ticks, contours) else [])
    + (if g.view.scale > 3.2 then GridLines(g) else [])
  }

  /** What the cell pass issues: fill styles and filled rectangles only. */
  predicate IsCellCommand(c: Command) {
    c.SetFillStyle? || c.FillRect?
  }

  lemma {:induction false} RowCellsFill(g: GridView, i: int, n: nat)
    requires Drawable(g)
    ensures forall k :: 0 <= k < |RowCells(g, i, n)| ==> IsCellCommand(RowCells(g, i, n)[k])
  {
    if n > 0 {
      RowCellsFill(g, i, n - 1);
      var prev := RowCells(g, i, n - 1);
      var cell := CellCommands(g, i, n - 1);
      assert RowCells(g, i, n) == prev + cell;
      forall k | 0 <= k < |RowCells(g, i, n)|
        ensures IsCellCommand(RowCells(g, i, n)[k])
      {
        if k < |prev| {
          assert RowCells(g, i, n)[k] == prev[k];
        } else {
          assert RowCells(g, i, n)[k] == cell[k - |prev|];
        }
      }
    }
  }

  lemma {:induction false} GridCellsFill(g: GridView, n: nat)
    requires Drawable(g)
    ensures forall k :: 0 <= k < |GridCells(g, n)| ==> IsCellCommand(GridCells(g, n)[k])
  {
    if n > 0 {
      GridCellsFill(g, n - 1);
      RowCellsFill(g, n - 1, Cols(g.grid));
      var prev := GridCells(g, n - 1);
      var row := RowCells(g, n - 1, Cols(g.grid));
      assert GridCells(g, n) == prev + row;
      forall k | 0 <= k < |GridCells(g, n)|
        ensures IsCellCommand(GridCells(g, n)[k])
      {
        if k < |prev| {
          assert GridCells(g, n)[k] == prev[k];
        } else {
          assert GridCells(g, n)[k] == row[k - |prev|];
        }
      }
    }
  }

  /** The overlay rule: drawGrid's output ends with the overlay's stroke
      exactly when the scale exceeds 3.2; otherwise it ends with the
      contour pass's restore or a cell's rectangle, or is empty. */
  lemma OverlayIffZoomedIn(g: GridView, opts: Options, ticks: (real, real, real) -> seq<real>,
                           contours: (seq<real>, nat, nat, seq<real>) -> seq<Contour>)
    requires Drawable(g)
    ensures var d := GridDrawing(g, opts, ticks, contours);
            (|d| > 0 && d[|d| - 1] == Stroke) <==> g.view.scale > 3.2
  {
    var d := GridDrawing(g, opts, ticks, contours);
    var cells := GridCells(g, |g.grid|);
    var cd := if opts.showContours != Some(false)
              then ContoursDrawing(g.grid, g.b, g.view, g.stats, opts, ticks, contours) else [];
    if g.view.scale > 3.2 {
      var lines := GridLines(g);
      assert d == cells + cd + lines;
      assert lines[|lines| - 1] == Stroke;
    } else {
      assert d == cells + cd;
      ContoursDrawingShape(g.grid, g.b, g.view, g.stats, opts, ticks, contours);
      GridCellsFill(g, |g.grid|);
      if |cd| > 0 {
        assert d[|d| - 1] == cd[|cd| - 1] == Restore;
      } else if |cells| > 0 {
        assert d[|d| - 1] == cells[|cells| - 1];
      }
    }
  }

  /** The inner loop of drawGrid over the columns of row i. */
  method FillRow(g: GridView, i: int) returns (cmds: seq<Command>)
    requires Drawable(g)
    ensures cmds == RowCells(g, i, Cols(g.grid))
  {
    cmds := [];
    for j := 0 to Cols(g.grid)
      invariant cmds == RowCells(g, i, j)
    {
      cmds := cmds + CellCommands(g, i, j);
    }
  }

  /** The outer loop of drawGrid over the rows. */
  method FillCells(g: GridView) returns (cmds: seq<Command>)
    requires Drawable(g)
    ensures cmds == GridCells(g, |g.grid|)
  {
    cmds := [];
    for i := 0 to |g.grid|
      invariant cmds == GridCells(g, i)
    {
      var row := FillRow(g, i);
      cmds := cmds + row;
    }
  }

  /** The two overlay loops of drawGrid. */
  method StrokeGridLines(g: GridView) returns (cmds: seq<Command>)
    requires Drawable(g)
    ensures cmds == GridLines(g)
  {
    var lines := [];
    for i := 0 to |g.grid| + 1
      invariant lines == HLines(g, i)
    {
      lines := lines + HLine(g, i);
    }
    ghost var horizontal := lines;
    for j := 0 to Cols(g.grid) + 1
      invariant lines == horizontal + VLines(g, j)
    {
      lines := lines + VLine(g, j);
    }
    cmds := [SetStrokeStyle(OverlayStroke), SetLineWidth(1.0), BeginPath] + lines + [Stroke];
  }

  /** drawGrid: nothing without a grid, bounds or columns; otherwise the
      cells, the contour pass and the overlay. */
  method DrawGrid(grid: Grid, bounds: Option<Bounds>, view: View, metric: string,
                  stats: Option<Stats>, opts: Options, canvasW: real, canvasH: real,
                  interpolate: (seq<string>, real) -> string,
                  ticks: (real, real, real) -> seq<real>,
                  contours: (seq<real>, nat, nat, seq<real>) -> seq<Contour>)
    returns (cmds: seq<Command>)
    ensures |grid| == 0 || bounds.None? || Cols(grid) == 0 ==> cmds == []
    ensures bounds.Some? ==>
              var g := GridView(grid, bounds.value, view, metric, stats, canvasW, canvasH, interpolate);
              Drawable(g) ==> cmds == GridDrawing(g, opts, ticks, contours)
  {
    if |grid| == 0 || bounds.None? {
      return [];
    }
    if Cols(grid) == 0 {
      return [];
    }
    var g := GridView(grid, bounds.value, view, metric, stats, canvasW, canvasH, interpolate);
    var cells := FillCells(g);
    var contourCmds: seq<Command> := [];
    if opts.showContours != Some(false) {
      contourCmds := DrawContours(grid, g.b, view, stats, opts, ticks, contours);
    }
    var overlay: seq<Command> := [];
    if view.scale > 3.2 {
      overlay := StrokeGridLines(g);
    }
    cmds := cells + contourCmds + overlay;
  }

  // ---------------------------------------------------------------------
  // Borehole markers

  /** A borehole marker: its name, world position and the value of the
      metric being shown. */
  datatype Borehole = Borehole(name: string, x: real, y: real, value: real)

  /** The optional focus record: a highlighted index set with its accent
      colour and pulse animation. */
  datatype Focus = Focus(active: bool, indexSet: Option<set<int>>, accent: Option<string>,
                         animate: bool, pulseT: Option<real>)

  /** `focus?.active && focus?.indexSet instanceof Set && focus.indexSet.size > 0`. */
  predicate HasFocus(focus: Option<Focus>) {
    focus.Some? && focus.value.active && focus.value.indexSet.Some? && |focus.value.indexSet.value| > 0
  }

  /** `String(focus?.accent || '#111827')`. */
  function Accent(focus: Option<Focus>): string {
    if focus.None? || focus.value.accent.None? || focus.value.accent.value == "" then "#111827"
    else focus.value.accent.value
  }

  predicate Animate(focus: Option<Focus>) {
    focus.Some? && focus.value.animate
  }

  /** `Number(focus?.pulseT || 0)`. */
  function PulseT(focus: Option<Focus>): real {
    if focus.None? || focus.value.pulseT.None? then 0.0 else focus.value.pulseT.value
  }

  /** Without an active focus every marker counts as selected. */
  predicate IsSelected(focus: Option<Focus>, i: int) {
    !HasFocus(focus) || i in focus.value.indexSet.value
  }

  /** `hoveredName && hoveredName === b.borehole_name`. */
  predicate IsHover(hovered: string, b: Borehole) {
    hovered != "" && hovered == b.name
  }

  function MarkerRadius(hover: bool, selected: bool, focused: bool): (r: real)
    ensures 5.8 <= r <= 7.5
    ensures r == 7.5 <==> hover
  {
    if hover then 7.5 else if selected && focused then 6.6 else 5.8
  }

  function MarkerAlpha(selected: bool, focused: bool): (a: real)
    ensures 0.0 < a <= 1.0
    ensures a < 1.0 <==> focused && !selected
  {
    if focused && !selected then 0.24 else 1.0
  }

  function MarkerFill(base: string, selected: bool, focused: bool): string {
    if focused && !selected then ToMutedGray(base, 0.84) else base
  }

  function MarkerStroke(hover: bool, selected: bool, focused: bool, accent: string): string {
    if hover then "#111827" else if selected && focused then accent else "rgba(255,255,255,0.95)"
  }

  /** What drawBoreholes reads: the markers, the metric and its stats, the
      bounds and view, the hovered name, the focus, the interpolator, and
      Math.sin for the pulse. */
  datatype MarkerView = MarkerView(bs: seq<Borehole>, metric: string, stats: Option<Stats>,
                                   b: Bounds, view: View, hovered: string, focus: Option<Focus>,
                                   interpolate: (seq<string>, real) -> string,
                                   sin: real -> real)

  /** The pulse phase in [0, 1] for an animated focused marker, else 0. */
  function Pulse(m: MarkerView, i: int): real {
    if Animate(m.focus) && HasFocus(m.focus) && IsSelected(m.focus, i)
    then (m.sin(PulseT(m.focus) * 5.0 + (i as real) * 0.35) + 1.0) / 2.0
    else 0.0
  }

  /** The commands for marker i: its disc, then for a focused marker that is
      not hovered an accent ring and, when animated, a pulsing halo. */
  function MarkerCommands(m: MarkerView, i: int): (cmds: seq<Command>)
    requires 0 <= i < |m.bs|
    ensures |cmds| >= 10 && cmds[0] == Save && cmds[|cmds| - 1] == Restore
    ensures var p := WorldToScreen(m.view, m.bs[i].x, m.bs[i].y, Some(m.b));
            cmds[6] == Arc(p.x, p.y, MarkerRadius(IsHover(m.hovered, m.bs[i]), IsSelected(m.focus, i),
                                                  HasFocus(m.focus)))
  {
    var bh := m.bs[i];
    var p := WorldToScreen(m.view, bh.x, bh.y, Some(m.b));
    var hover := IsHover(m.hovered, bh);
    var focused := HasFocus(m.focus);
    var selected := IsSelected(m.focus, i);
    var pulse := Pulse(m, i);
    var radius := MarkerRadius(hover, selected, focused);
    var base := GetColor(m.metric, bh.value, m.stats, m.interpolate);
    var disc := [Save, SetAlpha(MarkerAlpha(selected, focused)),
                 SetFillStyle(MarkerFill(base, selected, focused)),
                 SetStrokeStyle(MarkerStroke(hover, selected, focused, Accent(m.focus))),
                 SetLineWidth(if hover then 2.4 else 1.8),
                 BeginPath, Arc(p.x, p.y, radius), Fill, Stroke];
    var halo := if Animate(m.focus)
                then [SetAlpha(0.35 + pulse * 0.45), SetLineWidth(1.6 + pulse * 0.9), BeginPath,
                      Arc(p.x, p.y, radius + 6.0 + pulse * 5.5), Stroke]
                else [];
    var ring := if selected && focused && !hover
                then [SetAlpha(0.95), SetStrokeStyle(Accent(m.focus)), SetLineWidth(2.0), BeginPath,
                      Arc(p.x, p.y, radius + 3.6), Stroke] + halo
                else [];
    disc + ring + [Restore]
  }

  function MarkersCommands(m: MarkerView, n: nat): seq<Command>
    requires n <= |m.bs|
  {
    if n == 0 then [] else MarkersCommands(m, n - 1) + MarkerCommands(m, n - 1)
  }

  /** A hovered marker is drawn larger than any marker that is not hovered,
      and a focused one larger than one outside the focus. */
  lemma MarkerRadiusOrder(h1: bool, s1: bool, h2: bool, s2: bool, focused: bool)
    ensures h1 && !h2 ==> MarkerRadius(h1, s1, focused) > MarkerRadius(h2, s2, focused)
    ensures !h1 && !h2 && focused && s1 && !s2 ==>
              MarkerRadius(h1, s1, focused) > MarkerRadius(h2, s2, focused)
    ensures !focused && !h1 ==> MarkerRadius(h1, s1, focused) == 5.8
  {
  }

  /** With an active focus set, a marker outside it is drawn at opacity 0.24
      in the muted gray of its colour, outlined in white and without rings. */
  lemma UnfocusedMarkerMuted(m: MarkerView, i: int)
    requires 0 <= i < |m.bs|
    requires HasFocus(m.focus) && i !in m.focus.value.indexSet.value
    ensures var cmds := MarkerCommands(m, i);
            var base := GetColor(m.metric, m.bs[i].value, m.stats, m.interpolate);
            && |cmds| == 10
            && cmds[1] == SetAlpha(0.24)
            && cmds[2] == SetFillStyle(ToMutedGray(base, 0.84))
            && (!IsHover(m.hovered, m.bs[i]) ==> cmds[3] == SetStrokeStyle("rgba(255,255,255,0.95)"))
  {
  }

  /** Without an active focus every marker is opaque, keeps its own colour
      and has no accent ring. */
  lemma UnfocusedViewPlain(m: MarkerView, i: int)
    requires 0 <= i < |m.bs|
    requires !HasFocus(m.focus)
    ensures var cmds := MarkerCommands(m, i);
            && |cmds| == 10
            && cmds[1] == SetAlpha(1.0)
            && cmds[2] == SetFillStyle(GetColor(m.metric, m.bs[i].value, m.stats, m.interpolate))
  {
  }

  /** A focused marker that is not hovered gets the accent ring 3.6 px out,
      and when animated a halo whose radius stays between 6 and 11.5 px
      beyond the disc as long as the sine stays in [-1, 1]. */
  lemma FocusedMarkerRings(m: MarkerView, i: int)
    requires 0 <= i < |m.bs|
    requires HasFocus(m.focus) && i in m.focus.value.indexSet.value && !IsHover(m.hovered, m.bs[i])
    requires -1.0 <= m.sin(PulseT(m.focus) * 5.0 + (i as real) * 0.35) <= 1.0
    ensures var cmds := MarkerCommands(m, i);
            var p := WorldToScreen(m.view, m.bs[i].x, m.bs[i].y, Some(m.b));
            && cmds[6] == Arc(p.x, p.y, 6.6)
            && cmds[13] == Arc(p.x, p.y, 6.6 + 3.6)
            && (Animate(m.focus) ==>
                  && |cmds| == 21
                  && cmds[18].Arc?
                  && 6.6 + 6.0 <= cmds[18].radius <= 6.6 + 11.5)
            && (!Animate(m.focus) ==> |cmds| == 16)
  {
    var pulse := Pulse(m, i);
    assert 0.0 <= pulse <= 1.0;
    ScaledFraction(5.5, pulse);
  }

  /** drawBoreholes: nothing without bounds, otherwise every marker in
      order. */
  method DrawBoreholes(bs: seq<Borehole>, metric: string, stats: Option<Stats>,
                       bounds: Option<Bounds>, view: View, hovered: string, focus: Option<Focus>,
                       interpolate: (seq<string>, real) -> string, sin: real -> real)
    returns (cmds: seq<Command>)
    ensures bounds.None? ==> cmds == []
    ensures bounds.Some? ==>
              var m := MarkerView(bs, metric, stats, bounds.value, view, hovered, focus, interpolate, sin);
              cmds == MarkersCommands(m, |bs|)
  {
    if bounds.None? {
      return [];
    }
    var m := MarkerView(bs, metric, stats, bounds.value, view, hovered, focus, interpolate, sin);
    cmds := [];
    for i := 0 to |bs|
      invariant cmds == MarkersCommands(m, i)
    {
      cmds := cmds + MarkerCommands(m, i);
    }
  }

  // ---------------------------------------------------------------------
  // Hit-testing

  /** The squared screen distance from (sx, sy) to marker k. Math.hypot is
      compared through its square, which orders distances the same way. */
  function MarkerDist2(bs: seq<Borehole>, b: Bounds, view: View, sx: real, sy: real, k: int): real
    requires 0 <= k < |bs|
  {
    var p := WorldToScreen(view, bs[k].x, bs[k].y, Some(b));
    (sx - p.x) * (sx - p.x) + (sy - p.y) * (sy - p.y)
  }

  /** Marker k is the first closest among the first n. */
  predicate FirstNearest(bs: seq<Borehole>, b: Bounds, view: View, sx: real, sy: real, k: int, n: int)
    requires n <= |bs|
  {
    && 0 <= k < n
    && (forall j :: 0 <= j < n ==> MarkerDist2(bs, b, view, sx, sy, k) <= MarkerDist2(bs, b, view, sx, sy, j))
    && (forall j :: 0 <= j < k ==> MarkerDist2(bs, b, view, sx, sy, j) > MarkerDist2(bs, b, view, sx, sy, k))
  }

  /** `hypot(...) <= radiusPx` for a squared distance d2 >= 0. */
  predicate WithinRadius(d2: real, radius: real) {
    radius >= 0.0 && d2 <= radius * radius
  }

  /** The first closest marker is unique. */
  lemma FirstNearestUnique(bs: seq<Borehole>, b: Bounds, view: View, sx: real, sy: real, k1: int, k2: int)
    requires FirstNearest(bs, b, view, sx, sy, k1, |bs|)
    requires 0 <= k2 < |bs| && k2 != k1
    ensures !FirstNearest(bs, b, view, sx, sy, k2, |bs|)
  {
    if k2 < k1 {
      assert MarkerDist2(bs, b, view, sx, sy, k2) > MarkerDist2(bs, b, view, sx, sy, k1);
    } else {
      assert MarkerDist2(bs, b, view, sx, sy, k1) <= MarkerDist2(bs, b, view, sx, sy, k2);
    }
  }

  /** pickNearestBorehole: nothing without bounds or markers; otherwise the
      first closest marker if it lies within the radius, else nothing. */
  method PickNearestBorehole(sx: real, sy: real, bs: seq<Borehole>, bounds: Option<Bounds>,
                             view: View, radius: real)
    returns (picked: Option<Borehole>)
    ensures bounds.None? || |bs| == 0 ==> picked == None
    ensures bounds.Some? && |bs| > 0 ==>
              exists k :: FirstNearest(bs, bounds.value, view, sx, sy, k, |bs|) &&
                picked == (if WithinRadius(MarkerDist2(bs, bounds.value, view, sx, sy, k), radius)
                           then Some(bs[k]) else None)
  {
    if bounds.None? {
      return None;
    }
    var b := bounds.value;
    var nearest: Option<Borehole> := None;
    var minDist: Option<real> := None;
    ghost var k := 0;
    for i := 0 to |bs|
      invariant i == 0 ==> nearest.None? && minDist.None?
      invariant i > 0 ==> && FirstNearest(bs, b, view, sx, sy, k, i)
                          && nearest == Some(bs[k])
                          && minDist == Some(MarkerDist2(bs, b, view, sx, sy, k))
    {
      var dist := MarkerDist2(bs, b, view, sx, sy, i);
      if minDist.None? || dist < minDist.value {
        minDist := Some(dist);
        nearest := Some(bs[i]);
        k := i;
      }
    }
    if |bs| == 0 {
      return None;
    }
    picked := if WithinRadius(minDist.value, radius) then nearest else None;
  }

  // ---------------------------------------------------------------------
  // Sampling

  /** The answer of sampleGridValue: null, a number, or NaN for a cell past
      the end of a short row (`Number(undefined)`). */
  datatype Sample = NoSample | Value(v: real) | NotANumber

  /** The cell sampleGridValue reads: the position as a fraction of each
      span, scaled by (n - 1) and floored, then clamped to the grid. */
  function SampleIndex(grid: Grid, b: Bounds, wx: real, wy: real): (rc: (int, int))
    requires |grid| > 0 && Cols(grid) > 0
    ensures 0 <= rc.0 < |grid| && 0 <= rc.1 < Cols(grid)
  {
    (AxisCell(b.maxY - wy, b.maxY - b.minY, |grid|), AxisCell(wx - b.minX, b.maxX - b.minX, Cols(grid)))
  }

  /** One axis of sampleGridValue: an offset into a span of n cells. */
  function AxisCell(offset: real, span: real, n: int): (k: int)
    requires n > 0
    ensures 0 <= k < n
  {
    var t := Clamp01(offset / Max(span, 0.000001));
    ClampInt((t * ((n - 1) as real)).Floor, 0, n - 1)
  }

  /** sampleGridValue. */
  function SampleGridValue(grid: Grid, bounds: Option<Bounds>, wx: real, wy: real): (s: Sample)
    ensures s == NoSample <==> |grid| == 0 || bounds.None? || Cols(grid) == 0
    ensures s != NoSample ==>
              var rc := SampleIndex(grid, bounds.value, wx, wy);
              && (s.Value? <==> rc.1 < |grid[rc.0]|)
              && (s.Value? ==> s.v == grid[rc.0][rc.1])
  {
    if |grid| == 0 || bounds.None? || Cols(grid) == 0 then NoSample
    else
      var rc := SampleIndex(grid, bounds.value, wx, wy);
      if rc.1 < |grid[rc.0]| then Value(grid[rc.0][rc.1]) else NotANumber
  }

  /** The index is floored, not rounded: on a row of three cells over
      [0, 2], x = 1.9 is nearest to column 2 but reads column 1. */
  lemma SampleFloors()
    ensures SampleIndex([[10.0, 20.0, 30.0]], Bounds(0.0, 2.0, 0.0, 1.0), 1.9, 1.0) == (0, 1)
    ensures SampleGridValue([[10.0, 20.0, 30.0]], Some(Bounds(0.0, 2.0, 0.0, 1.0)), 1.9, 1.0) == Value(20.0)
  {
    assert (1.9 - 0.0) / Max(2.0 - 0.0, 0.000001) == 0.95;
    assert (0.95 * 2.0).Floor == 1;
  }

  lemma DivMulCancel(v: real, c: real)
    requires c > 0.0 && 0.0 <= v <= c
    ensures 0.0 <= v / c <= 1.0 && (v / c) * c == v
  {
  }

  /** Along one axis: the offset of vertex k of n from the span's start,
      as IndexToWorld places it, floors back to k. */
  lemma AxisBack(k: int, n: int, span: real, offset: real)
    requires n >= 2 && 0 <= k < n && span >= 0.000001
    requires offset == ((k as real) / Max((n - 1) as real, 1.0)) * Max(span, 0.000001)
    ensures AxisCell(offset, span, n) == k
  {
    var c := (n - 1) as real;
    assert Max(c, 1.0) == c;
    assert Max(span, 0.000001) == span;
    var f := (k as real) / c;
    DivMulCancel(k as real, c);
    MulDivCancel(f, span);
    var d := f * span;
    assert offset == d;
    assert d / Max(span, 0.000001) == f;
    assert Clamp01(f) == f;
    assert f * c == k as real;
    assert (Clamp01(d / Max(span, 0.000001)) * c).Floor == k;
  }

  /** A grid vertex mapped to the world with the contour index map samples
      back to the same cell index. */
  lemma SampleIndexToWorld(grid: Grid, b: Bounds, i: int, j: int)
    requires |grid| >= 2 && Cols(grid) >= 2
    requires b.maxX - b.minX >= 0.000001 && b.maxY - b.minY >= 0.000001
    requires 0 <= i < |grid| && 0 <= j < Cols(grid)
    ensures var w := IndexToWorld(b, |grid|, Cols(grid), Point(j as real, i as real));
            SampleIndex(grid, b, w.x, w.y) == (i, j)
  {
    var w := IndexToWorld(b, |grid|, Cols(grid), Point(j as real, i as real));
    var dx := ((j as real) / Max((Cols(grid) - 1) as real, 1.0)) * Max(b.maxX - b.minX, 0.000001);
    var dy := ((i as real) / Max((|grid| - 1) as real, 1.0)) * Max(b.maxY - b.minY, 0.000001);
    assert w.x - b.minX == dx;
    assert b.maxY - w.y == dy;
    AxisBack(j, Cols(grid), b.maxX - b.minX, dx);
    AxisBack(i, |grid|, b.maxY - b.minY, dy);
  }

  /** The canvas corners sample the first and the last cell. */
  lemma SampleCorners(grid: Grid, b: Bounds)
    requires |grid| > 0 && Cols(grid) > 0
    requires b.maxX - b.minX >= 0.000001 && b.maxY - b.minY >= 0.000001
    ensures SampleIndex(grid, b, b.minX, b.maxY) == (0, 0)
    ensures SampleIndex(grid, b, b.maxX, b.minY) == (|grid| - 1, Cols(grid) - 1)
  {
    DivSelf(b.maxX - b.minX);
    DivSelf(b.maxY - b.minY);
  }
}
