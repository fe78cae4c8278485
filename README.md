# Mining-face visualisation engine — a Dafny model

This project models the 2-D mining-face visualisation engine of the Vue front
end: the four composables that turn mining data into pictures and motion.

- **Viewport** (`viewport.dfy`, module `Viewport`). The pan/zoom record
  `{x, y, scale, isDragging, lastX, lastY}` is the class
  `ViewportState`. The world-to-screen map and its inverse, with a flipped
  y axis, are functions of the current `View`. `fitToBounds`, `zoomAt` and
  the drag handlers are methods that update the record in place.
- **Indicator colour** (`indicator_color.dfy`, module `IndicatorColor`). This
  module covers the per-metric palettes, the CSS legend gradient and the
  `safeStats` fallback range. It also covers the colour parameter
  t ∈ [0, 1] that `getColor` hands to the palette interpolator, and the
  `rgb(...)` parser and muted-gray rewrite of `toMutedGray`.
- **Indicator canvas** (`indicator_canvas.dfy`, module `IndicatorCanvas`).
  This module covers the heat-map renderer. A canvas context is modelled as
  the sequence of commands issued to it. The module covers:
  - the row-major flattening of the grid into an array, with a running index;
  - the interior contour thresholds and the grid-index-to-world map around
    d3's contours, and the stroking of the contour rings;
  - cell culling and the line overlay of `drawGrid`;
  - borehole markers with their hover and focus styling;
  - the nearest-marker hit test;
  - the floored cell look-up of `sampleGridValue`.

  Each loop of the source is a method with loop invariants:
  - `FlattenGrid`;
  - `StrokeRing`, `StrokePolygon`, `StrokeMultiPolygon` and `StrokeContours`;
  - `FillRow`, `FillCells` and `StrokeGridLines`;
  - `DrawBoreholes`;
  - `PickNearestBorehole`.

  The drawing methods are proved to issue exactly the commands of a
  specification function. `FlattenGrid` is proved to fill its array with
  the row-major values. `PickNearestBorehole` is proved to return the first
  nearest marker within the hit radius.
- **Mining simulation** (`mining_simulation.dfy`, module `MiningSimulation`).
  The reactive `state` record with its progress callback slot is the class
  `Simulation`. Its methods are the playback controls and one animation
  frame (`Tick`). The derived geometry is a set of pure functions of the
  workface and the state: bounds, centre, length, front line, goaf polygon,
  and stress and relief zones.
- **Particles and ripples** (`particles.dfy`, module `Particles`).
  - `Particle` and `Ripple` are classes, updated in place each tick.
  - `ParticleSystem` and `RippleSystem` hold their arrays as `seq` fields.
    Emission appends to the arrays. Every tick rebuilds them with an
    order-keeping filter (`Filter`), as `array.filter` does; nothing is
    pooled.
  - The capacity test runs once before a batch, so the particle count can
    pass `maxParticles` by up to `emitRate - 1`. The model keeps this.
    `CapacityBound` is the bound that `Valid()` maintains. It is reached
    exactly when `maxParticles >= 1` and `emitRate >= 1`
    (`CapacityOvershoot`); otherwise nothing is ever emitted.

`common.dfy` (module `Common`) holds the shared vocabulary: `Option`, points,
bounds, and the `Math.min`/`Math.max`/clamp idioms.

The host's non-deterministic and foreign pieces are parameters of the
model:
- `Math.random` draws are reals that callers supply, as the `*Draw`
  datatypes, with `InUnit` saying they lie in [0, 1).
- Clock readings are `now` arguments. Animation-frame handles are
  `FrameId` arguments.
- `Math.cos`, `Math.sin` and `Math.PI` arrive as a `Trig` record.
- d3's `ticks`, `contours` and `interpolateRgbBasis` are function-valued
  arguments.
- The `worldToScreen` callback of `drawContours`, `drawGrid`,
  `drawBoreholes` and `pickNearestBorehole` is `Viewport.WorldToScreen` at a
  `View` argument. `drawBoreholes` and `pickNearestBorehole` take no
  viewport in the source, so their `View` argument stands for the view
  behind the callback.

Where the code and its comments or the design disagree, the model follows
the code:
- The two arrays grow and are filtered; there is no pool and no active
  flag.
- `sampleGridValue` floors `t * (n - 1)` rather than picking the nearest
  cell (`SampleFloors` shows an input where the two differ).
- The direction comment says "0 = East". The geometry uses
  `(direction - 90)` degrees, so 90 is the eastward sweep
  (`EastwardSweep`).
- The comment on `playbackSpeed` gives the range as "0.5x - 5x".
  `setPlaybackSpeed` clamps to [0.1, 10], and `SetPlaybackSpeed` follows
  the code.

## Model

| member | source | states |
|---|---|---|
| Common.Min | frontend/src/composables/useViewport.js:37-40 | `Math.min`: the result is one of the arguments and no larger than either |
| Common.Max | frontend/src/composables/useViewport.js:35-36 | `Math.max`: the result is one of the arguments and no smaller than either |
| Common.Clamp | frontend/src/composables/useMiningSimulation.js:210 | `Math.max(lo, Math.min(hi, v))` lies in [lo, hi]; it keeps a v already inside, gives lo below the range and hi above it |
| Common.ClampInt | frontend/src/composables/useIndicatorCanvas.js:218-219 | the integer clamp of an index lies in [lo, hi] and keeps an index already inside |
| Common.Lerp | frontend/src/composables/useParticles.js:84-85 | `a + (b - a) * t` is a at t = 0 and b at t = 1 |
| Common.LerpBetween | frontend/src/composables/useParticles.js:83-85 | for t in [0, 1] the interpolated value lies between the two ends |
| Viewport.WorldToScreen | frontend/src/composables/useViewport.js:13-21 | without bounds the screen point is the origin |
| Viewport.ScreenToWorld | frontend/src/composables/useViewport.js:23-31 | without bounds, or at scale 0, the world point is the origin |
| Viewport.WorldScreenRoundTrip | frontend/src/composables/useViewport.js:13-31 | at a nonzero scale, mapping a world point to the screen and back returns the same point |
| Viewport.ScreenWorldRoundTrip | frontend/src/composables/useViewport.js:13-31 | at a nonzero scale, mapping a screen point to the world and back returns the same point |
| Viewport.Zoomed | frontend/src/composables/useViewport.js:71-74 | the view zoomAt moves to has the new scale, and zooming to the current nonzero scale leaves the view exactly where it was |
| Viewport.OffsetPlaces | frontend/src/composables/useViewport.js:45-46 | an offset chosen as `s − (w − origin) · scale` on both axes draws the world point at the screen point, and at a nonzero scale the inverse map takes it back |
| Viewport.WorldToScreenOrientation | frontend/src/composables/useViewport.js:13-21 | at a positive scale, screen x increases with world x and screen y decreases as world y increases (both directions of each iff) |
| Viewport.AnchorKept | frontend/src/composables/useViewport.js:71-74 | the zoomed view has the new scale, maps the anchor world point back under the cursor, and at a nonzero scale maps the cursor back to the anchor |
| Viewport.FitScale | frontend/src/composables/useViewport.js:35-44 | the fitted scale is at least 0.01; it is 0.01 or one of the two padded ratios, and above 0.01 it does not exceed either ratio |
| Viewport.FitScaleExample | frontend/src/composables/useViewport.js:37-44 | bounds 0..100 × 0..50 on a 400 × 300 screen with padding 56 are drawn at scale 2.88 |
| Viewport.ViewportState.constructor | frontend/src/composables/useViewport.js:4-11 | the initial record: offset (0, 0), scale 1, not dragging, last pointer (0, 0); `Valid()` (positive scale) holds |
| Viewport.ViewportState.FitToBounds | frontend/src/composables/useViewport.js:33-47 | no change without bounds or on a zero width or height; otherwise the scale is the fitted scale (≥ 0.01) and the bounds' midpoint maps to the screen centre; a positive scale stays positive |
| Viewport.ViewportState.StartDrag | frontend/src/composables/useViewport.js:49-53 | enters the dragging state and records the pointer; a positive scale stays positive |
| Viewport.ViewportState.DragTo | frontend/src/composables/useViewport.js:55-61 | while dragging, the offset moves by the pointer delta and the pointer is recorded; otherwise nothing changes; the scale is never in its frame; a positive scale stays positive |
| Viewport.ViewportState.EndDrag | frontend/src/composables/useViewport.js:63-65 | leaves the dragging state; a positive scale stays positive |
| Viewport.ViewportState.ZoomAt | frontend/src/composables/useViewport.js:67-75 | no change without bounds or when the clamped scale equals the current one; otherwise the scale becomes clamp(scale · factor) and the world point under the cursor stays under it; a positive scale stays positive whenever 0 < minScale ≤ maxScale, as for the defaults 0.1 and 50 |
| IndicatorColor.Clamp01 | frontend/src/composables/useIndicatorCanvas.js:10 | the result is in [0, 1]; values inside are kept, values below give 0 and values above give 1 |
| IndicatorColor.SafeStats | frontend/src/composables/useIndicatorCanvas.js:27-34 | the range is [0, 100] when either end is non-finite or the ends are equal, and the given ends otherwise; its ends always differ |
| IndicatorColor.StatMin | frontend/src/composables/useIndicatorCanvas.js:28 | `stats?.min ?? 0`: the result is 0 or the given minimum, and it is the given minimum whenever stats and the field are present |
| IndicatorColor.StatMax | frontend/src/composables/useIndicatorCanvas.js:29 | `stats?.max ?? 100`: the result is 100 or the given maximum, and it is the given maximum whenever stats and the field are present |
| IndicatorColor.SafeStatsDefaults | frontend/src/composables/useIndicatorCanvas.js:28-29 | missing stats or missing fields default to min 0 and max 100 |
| IndicatorColor.SafeStatsIdempotent | frontend/src/composables/useIndicatorCanvas.js:27-34 | feeding safeStats its own answer returns that answer |
| IndicatorColor.Normalize | frontend/src/composables/useIndicatorCanvas.js:46 | the normalised value lies in [0, 1] |
| IndicatorColor.ColorParam | frontend/src/composables/useIndicatorCanvas.js:44-46 | the colour parameter t lies in [0, 1] for any value and any stats |
| IndicatorColor.NormalizeAnchors | frontend/src/composables/useIndicatorCanvas.js:46 | min gives t = 0, max gives t = 1 and the midpoint gives t = 0.5 |
| IndicatorColor.ColorParamMonotone | frontend/src/composables/useIndicatorCanvas.js:44-46 | on an increasing range, a larger value never gets a smaller t |
| IndicatorColor.GetPalette | frontend/src/composables/useIndicatorCanvas.js:3-37 | five stops: the metric's palette when it has one, and the mpi palette for any other metric that is not an inherited property name; no stop contains a comma |
| IndicatorColor.Join | frontend/src/composables/useIndicatorCanvas.js:41 | `colors.join(',')`: empty for no parts; otherwise as long as the parts plus one separator between neighbours, beginning with the first part and then the separator |
| IndicatorColor.FirstIndex | frontend/src/composables/useIndicatorCanvas.js:41 | the index of the first separator, or the length when there is none (helper for reading back the join) |
| IndicatorColor.SplitJoin | frontend/src/composables/useIndicatorCanvas.js:41 | splitting `join(',')` at the comma returns the parts when no part contains a comma |
| IndicatorColor.GetLegendGradient | frontend/src/composables/useIndicatorCanvas.js:39-42 | the CSS text starts with `linear-gradient(90deg, ` and ends with `)` |
| IndicatorColor.LegendListsPalette | frontend/src/composables/useIndicatorCanvas.js:39-42 | the text between the prefix and the closing parenthesis splits back into the metric's palette, in order |
| IndicatorColor.GetColor | frontend/src/composables/useIndicatorCanvas.js:44-49 | the colour is the metric palette's interpolator applied exactly at the colour parameter t of the value and stats, which lies in [0, 1] |
| IndicatorColor.DigitPrefix | frontend/src/composables/useIndicatorCanvas.js:13 | the length of the leading `\d+` run: within the text, all digits, followed by a non-digit or the end |
| IndicatorColor.ColorToRgb | frontend/src/composables/useIndicatorCanvas.js:11-18 | no channels exactly when `rgba?\((\d+),\s*(\d+),\s*(\d+)` matches at no position (case-insensitively); otherwise the channels of the match at the leftmost position where it matches |
| IndicatorColor.SearchLeftmost | frontend/src/composables/useIndicatorCanvas.js:13 | the scan finds the leftmost position at which the expression matches, and none exactly when there is no such position |
| IndicatorColor.Round | frontend/src/composables/useIndicatorCanvas.js:22-23 | `Math.round` gives the integer within half a unit of the value, rounding halves up |
| IndicatorColor.NatToStringValue | frontend/src/composables/useIndicatorCanvas.js:24 | reading back the decimal text of a number (the template's `${v}`) gives that number |
| IndicatorColor.MutedFallbackStable | frontend/src/composables/useIndicatorCanvas.js:11-21 | `#94a3b8` holds no `rgb(...)`, so muting it returns it unchanged |
| IndicatorColor.MutedLevelRange | frontend/src/composables/useIndicatorCanvas.js:22-23 | for channels in 0..255 and a ratio in [0, 1], the muted level is in 0..255 |
| IndicatorColor.MutedLevel | frontend/src/composables/useIndicatorCanvas.js:22-23 | at ratio 1 the level is the rounded luminance gray, at ratio 0 the blend target 235 |
| IndicatorColor.ToMutedGrayFallbackIff | frontend/src/composables/useIndicatorCanvas.js:19-25 | toMutedGray yields `#94a3b8` exactly when the text holds no `rgb(...)` match, and an `rgb(` text otherwise |
| IndicatorColor.MutedGrayParses | frontend/src/composables/useIndicatorCanvas.js:11-25 | muting a colour that parses gives `rgb(v,v,v)`, which parses back to three equal channels, each the muted level v |
| IndicatorCanvas.RowMajor | frontend/src/composables/useIndicatorCanvas.js:55-62 | the flattened grid has rows · cols entries |
| IndicatorCanvas.RowMajorIndex | frontend/src/composables/useIndicatorCanvas.js:55-62 | entry i · cols + j of the flattened grid is cell (i, j), with a missing cell reading 0 |
| IndicatorCanvas.FlattenGrid | frontend/src/composables/useIndicatorCanvas.js:55-62 | the nested loop with its running index fills the array with exactly the row-major flattening |
| IndicatorCanvas.ContourLevels | frontend/src/composables/useIndicatorCanvas.js:64 | at least 5; 9 when the option is absent or 0; the option itself when it is at least 5 |
| IndicatorCanvas.Thresholds | frontend/src/composables/useIndicatorCanvas.js:65 | `slice(1, -1)`: empty for at most two ticks, otherwise the ticks without the first and the last |
| IndicatorCanvas.IndexToWorldCorners | frontend/src/composables/useIndicatorCanvas.js:83-84 | index (0, 0) maps to (min_x, max_y), and (cols − 1, rows − 1) maps to (max_x, min_y) for non-degenerate bounds |
| IndicatorCanvas.IndexToWorldMonotone | frontend/src/composables/useIndicatorCanvas.js:83-84 | larger column indices map further east, larger row indices further south |
| IndicatorCanvas.IndexToWorldInBounds | frontend/src/composables/useIndicatorCanvas.js:83-84 | a grid vertex within the index range maps to a world point inside non-degenerate bounds |
| IndicatorCanvas.ContoursDrawingShape | frontend/src/composables/useIndicatorCanvas.js:51-95 | nothing is drawn exactly when the grid is smaller than 2 × 2 or no interior threshold remains; otherwise drawing is bracketed by save/restore, with the configured stroke and the zoom-dependent width (1.2 or 0.9) and opacity (0.45 or 0.7) |
| IndicatorCanvas.PathSteps | frontend/src/composables/useIndicatorCanvas.js:80-86 | the path of a ring's first n vertices is n steps, step k being moveTo for vertex 0 and lineTo for later ones, each at the vertex's screen point |
| IndicatorCanvas.RingCommands | frontend/src/composables/useIndicatorCanvas.js:79-90 | nothing exactly for a ring of fewer than two vertices; otherwise beginPath, moveTo the first vertex's screen point, lineTo each later one in order, closePath and stroke |
| IndicatorCanvas.StrokeRing | frontend/src/composables/useIndicatorCanvas.js:80-90 | a ring is one closed stroked path: moveTo its first vertex and lineTo each later one |
| IndicatorCanvas.StrokePolygon | frontend/src/composables/useIndicatorCanvas.js:78-91 | every ring of a polygon with two or more vertices is stroked in order; shorter rings are skipped |
| IndicatorCanvas.StrokeMultiPolygon | frontend/src/composables/useIndicatorCanvas.js:77-92 | every polygon of a contour is stroked in order |
| IndicatorCanvas.StrokeContours | frontend/src/composables/useIndicatorCanvas.js:76-93 | every contour d3 returns is stroked in order |
| IndicatorCanvas.DrawContours | frontend/src/composables/useIndicatorCanvas.js:51-95 | the guards, the flattening and the stroke loops issue exactly the contour drawing specified above |
| IndicatorCanvas.CellRect | frontend/src/composables/useIndicatorCanvas.js:114-120 | a cell's screen rectangle is at least 0.8 px wide and high |
| IndicatorCanvas.CulledIffDisjoint | frontend/src/composables/useIndicatorCanvas.js:122 | a cell is skipped exactly when its rectangle shares no point with the canvas |
| IndicatorCanvas.CellRectAtPositiveScale | frontend/src/composables/useIndicatorCanvas.js:112-120 | at a positive scale, a cell's rectangle starts at the image of its north-west corner and is the cell's world size times the scale plus 0.8 |
| IndicatorCanvas.HLinesShape | frontend/src/composables/useIndicatorCanvas.js:136-142 | each horizontal overlay line is a moveTo then a lineTo at the same screen y |
| IndicatorCanvas.VLinesShape | frontend/src/composables/useIndicatorCanvas.js:143-149 | each vertical overlay line is a moveTo then a lineTo at the same screen x |
| IndicatorCanvas.GridLinesCount | frontend/src/composables/useIndicatorCanvas.js:132-151 | the overlay draws rows + 1 horizontal and cols + 1 vertical segments between its style commands and its stroke |
| IndicatorCanvas.OverlayIffZoomedIn | frontend/src/composables/useIndicatorCanvas.js:110-151 | the drawing ends with the overlay's stroke exactly when the scale exceeds 3.2 |
| IndicatorCanvas.FillRow | frontend/src/composables/useIndicatorCanvas.js:113-125 | the inner cell loop issues each unculled cell's colour and rectangle in column order |
| IndicatorCanvas.FillCells | frontend/src/composables/useIndicatorCanvas.js:110-126 | the outer cell loop issues every row in order |
| IndicatorCanvas.StrokeGridLines | frontend/src/composables/useIndicatorCanvas.js:132-151 | the two overlay loops issue rows + 1 horizontal, then cols + 1 vertical lines in one stroked path |
| IndicatorCanvas.DrawGrid | frontend/src/composables/useIndicatorCanvas.js:97-152 | nothing for an empty grid, missing bounds or zero columns; otherwise the cells, the contours unless `showContours` is false, then the overlay above scale 3.2 |
| IndicatorCanvas.MarkerRadiusOrder | frontend/src/composables/useIndicatorCanvas.js:166 | a hovered marker is larger than an unhovered one, a focused marker larger than an unfocused one, and a plain marker is 5.8 |
| IndicatorCanvas.MarkerRadius | frontend/src/composables/useIndicatorCanvas.js:166 | the radius lies in [5.8, 7.5] and is 7.5 exactly for the hovered marker |
| IndicatorCanvas.MarkerAlpha | frontend/src/composables/useIndicatorCanvas.js:169 | the alpha lies in (0, 1] and is below 1 exactly when a focus is active and the marker is outside it |
| IndicatorCanvas.MarkerCommands | frontend/src/composables/useIndicatorCanvas.js:161-192 | each marker's commands are bracketed by save and restore, and the disc is an arc at the marker's screen point with the marker radius |
| IndicatorCanvas.UnfocusedMarkerMuted | frontend/src/composables/useIndicatorCanvas.js:164-177 | with an active focus set, a marker outside it is drawn at alpha 0.24, in the muted gray of its colour, with a white outline unless hovered, and without rings |
| IndicatorCanvas.UnfocusedViewPlain | frontend/src/composables/useIndicatorCanvas.js:164-177 | without an active focus, every marker is opaque, keeps its own colour and has no ring |
| IndicatorCanvas.FocusedMarkerRings | frontend/src/composables/useIndicatorCanvas.js:165-190 | a focused, unhovered marker has radius 6.6 and an accent ring 3.6 px out; when animated, its halo lies 6 to 11.5 px beyond the disc |
| IndicatorCanvas.DrawBoreholes | frontend/src/composables/useIndicatorCanvas.js:154-194 | nothing without bounds; otherwise every marker's commands, in order |
| IndicatorCanvas.FirstNearestUnique | frontend/src/composables/useIndicatorCanvas.js:200-207 | the first marker at the least distance is unique |
| IndicatorCanvas.PickNearestBorehole | frontend/src/composables/useIndicatorCanvas.js:196-209 | null without bounds or markers; otherwise the first marker at the least distance, if it is within the radius, and null if it is not |
| IndicatorCanvas.SampleIndex | frontend/src/composables/useIndicatorCanvas.js:216-219 | the row read is in [0, rows − 1] and the column in [0, cols − 1] |
| IndicatorCanvas.AxisCell | frontend/src/composables/useIndicatorCanvas.js:216-219 | the cell index along one axis is in [0, n − 1] |
| IndicatorCanvas.SampleGridValue | frontend/src/composables/useIndicatorCanvas.js:211-221 | null exactly for an empty grid, missing bounds or zero columns; otherwise the clamped cell's value, or NaN past the end of a short row |
| IndicatorCanvas.SampleFloors | frontend/src/composables/useIndicatorCanvas.js:218-219 | the index is floored, not rounded: on three cells over [0, 2], x = 1.9 reads column 1 |
| IndicatorCanvas.AxisBack | frontend/src/composables/useIndicatorCanvas.js:83-84 | along one axis, the world offset of vertex k floors back to cell k |
| IndicatorCanvas.SampleIndexToWorld | frontend/src/composables/useIndicatorCanvas.js:83-84 | sampling at the world position of grid vertex (i, j) reads cell (i, j) |
| IndicatorCanvas.SampleCorners | frontend/src/composables/useIndicatorCanvas.js:216-219 | the north-west corner samples the first cell and the south-east corner the last |
| MiningSimulation.OrDefault | frontend/src/composables/useMiningSimulation.js:10-12 | `x \|\| default`: the result is the default or the given number; a given nonzero number is kept; a nonzero default never yields 0 |
| MiningSimulation.MakeConfig | frontend/src/composables/useMiningSimulation.js:9-14 | no options give 500 m, 60 fps, 10 %/s and no autoplay; no numeric entry is ever 0 |
| MiningSimulation.DistancesSplitTotal | frontend/src/composables/useMiningSimulation.js:27-28 | mined plus remaining distance is the total; they are 0 and the total at progress 0, and the reverse at 100 |
| MiningSimulation.CurrentDistance | frontend/src/composables/useMiningSimulation.js:27 | 0 at progress 0, the total at 100, and within [0, total] for progress in [0, 100] and a non-negative total |
| MiningSimulation.RemainingDistance | frontend/src/composables/useMiningSimulation.js:28 | the total at progress 0, 0 at 100, and within [0, total] for progress in [0, 100] and a non-negative total |
| MiningSimulation.CompleteIffExhausted | frontend/src/composables/useMiningSimulation.js:27-29 | on a positive total, isComplete holds exactly when no distance remains |
| MiningSimulation.Trunc | frontend/src/composables/useMiningSimulation.js:230 | truncation toward zero: the integer within one unit of x on the side of 0, i.e. n ≤ x < n + 1 for x ≥ 0 and n − 1 < x ≤ n for x ≤ 0 |
| MiningSimulation.JsRem360 | frontend/src/composables/useMiningSimulation.js:230 | JavaScript's `% 360`: the remainder has the dividend's sign, is less than 360 in magnitude, and the dividend minus it is the truncated number of turns times 360 |
| MiningSimulation.NormalizeDirection | frontend/src/composables/useMiningSimulation.js:229-232 | the direction is in [0, 360) and differs from the angle by a whole number of turns |
| MiningSimulation.NormalizeDirectionStable | frontend/src/composables/useMiningSimulation.js:229-232 | an angle already in [0, 360) is kept, and normalising twice is normalising once |
| MiningSimulation.DirectionRad | frontend/src/composables/useMiningSimulation.js:32 | direction 90 is angle 0 (advance towards +x) and direction 0 is −π/2 |
| MiningSimulation.DirectionRadTurn | frontend/src/composables/useMiningSimulation.js:32 | a whole turn of 360 degrees adds exactly 2π to the angle |
| MiningSimulation.MinX | frontend/src/composables/useMiningSimulation.js:44 | `Math.min` over the xs: no larger than any, equal to one |
| MiningSimulation.MaxX | frontend/src/composables/useMiningSimulation.js:45 | `Math.max` over the xs: no smaller than any, equal to one |
| MiningSimulation.MinY | frontend/src/composables/useMiningSimulation.js:46 | `Math.min` over the ys: no larger than any, equal to one |
| MiningSimulation.MaxY | frontend/src/composables/useMiningSimulation.js:47 | `Math.max` over the ys: no smaller than any, equal to one |
| MiningSimulation.WorkfaceBounds | frontend/src/composables/useMiningSimulation.js:35-52 | null exactly when there is no workface, or it has neither bounds nor points; given bounds are returned as they are |
| MiningSimulation.PolygonBoundsTight | frontend/src/composables/useMiningSimulation.js:40-48 | the computed box holds every polygon point and each of its four sides touches one |
| MiningSimulation.WorkfaceCenter | frontend/src/composables/useMiningSimulation.js:54-60 | null exactly when the bounds are null |
| MiningSimulation.WorkfaceLength | frontend/src/composables/useMiningSimulation.js:62-65 | 0 when the bounds are null |
| MiningSimulation.Face | frontend/src/composables/useMiningSimulation.js:87-99 | the segment has the given centre, angle and nominal length |
| MiningSimulation.DisplacedBy | frontend/src/composables/useMiningSimulation.js:80-81 | moving a point by d along a unit direction moves it exactly d away |
| MiningSimulation.FaceSymmetric | frontend/src/composables/useMiningSimulation.js:87-99 | a face's centre is the midpoint of its ends, and when cos² + sin² = 1 at its angle its ends are its length apart |
| MiningSimulation.FrontLine | frontend/src/composables/useMiningSimulation.js:71-100 | null exactly when the workface bounds are null |
| MiningSimulation.FrontLineSymmetric | frontend/src/composables/useMiningSimulation.js:62-99 | the front line's length is max_y − min_y and its centre is the midpoint of its ends; when cos² + sin² = 1 at its angle, its ends are that length apart |
| MiningSimulation.FrontLineAdvance | frontend/src/composables/useMiningSimulation.js:75-82 | the face centre lies (max_x − min_x) · progress / 100 from the start point (min_x, centre y), when cos² + sin² = 1 at the direction |
| MiningSimulation.GoafArea | frontend/src/composables/useMiningSimulation.js:106-149 | null exactly when the workface bounds are null; otherwise four vertices |
| MiningSimulation.GeometryReadsCenterAndLength | frontend/src/composables/useMiningSimulation.js:71-135 | frontLine and goafArea read workfaceCenter and workfaceLength: the face's length is workfaceLength, its centre starts at (min_x, centre y), and the back line is a face of that length through the centre pulled back by centre x − min_x |
| MiningSimulation.FrontLineFromCenter | frontend/src/composables/useMiningSimulation.js:54-65 | over known bounds, the front line and the goaf built from the midpoint and the north-south extent agree with the workface-level reading |
| MiningSimulation.GoafAt | frontend/src/composables/useMiningSimulation.js:106-149 | the goaf polygon has four vertices |
| MiningSimulation.GoafClosesOnFront | frontend/src/composables/useMiningSimulation.js:143-148 | the goaf's last two vertices are the front line's end and then its start |
| MiningSimulation.EastwardSweep | frontend/src/composables/useMiningSimulation.js:75-148 | at direction 90 the face is the north-south segment at x = min_x + width · progress / 100, and the goaf is the rectangle from min_x to it |
| MiningSimulation.StressZone | frontend/src/composables/useMiningSimulation.js:156-167 | null exactly when there is no front line; otherwise 50 m ahead of the current front line |
| MiningSimulation.ReliefZone | frontend/src/composables/useMiningSimulation.js:172-181 | null exactly when there is no front line; otherwise 30 m behind the current front line |
| MiningSimulation.GeometryAbsentWithoutWorkface | frontend/src/composables/useMiningSimulation.js:35-173 | front line, goaf, both zones and centre are all null exactly when there is no workface or it has neither bounds nor points |
| MiningSimulation.DeltaNonneg | frontend/src/composables/useMiningSimulation.js:249 | a frame's progress increment is non-negative for non-negative elapsed time, rate and speed |
| MiningSimulation.Simulation.ProgressDelta | frontend/src/composables/useMiningSimulation.js:249 | no progress for no elapsed time, progressPerSecond × playbackSpeed per 1000 ms, and never negative for non-negative time, rate and speed |
| MiningSimulation.Simulation.constructor | frontend/src/composables/useMiningSimulation.js:9-24 | the configuration from the options; playing only under autoplay; progress 0, direction 0, speed 1, no frame handle, no callback |
| MiningSimulation.Simulation.Seek | frontend/src/composables/useMiningSimulation.js:209-211 | progress becomes the value clamped to [0, 100] |
| MiningSimulation.Simulation.SkipToStart | frontend/src/composables/useMiningSimulation.js:213-215 | progress becomes 0 |
| MiningSimulation.Simulation.SkipToEnd | frontend/src/composables/useMiningSimulation.js:217-219 | progress becomes 100 |
| MiningSimulation.Simulation.StepForward | frontend/src/composables/useMiningSimulation.js:221-223 | progress becomes clamp(progress + 2, 0, 100) |
| MiningSimulation.Simulation.StepBackward | frontend/src/composables/useMiningSimulation.js:225-227 | progress becomes clamp(progress − 2, 0, 100) |
| MiningSimulation.Simulation.SetDirection | frontend/src/composables/useMiningSimulation.js:229-232 | the direction becomes the normalised angle: in [0, 360) and a whole number of turns from the argument |
| MiningSimulation.Simulation.SetPlaybackSpeed | frontend/src/composables/useMiningSimulation.js:234-236 | the speed becomes the argument clamped to [0.1, 10] |
| MiningSimulation.Simulation.OnProgress | frontend/src/composables/useMiningSimulation.js:266-271 | the callback is registered for later frames |
| MiningSimulation.Simulation.Tick | frontend/src/composables/useMiningSimulation.js:241-264 | nothing unless playing; otherwise progress advances by elapsed/1000 · rate · speed, stopping at 100 and ending playback, or else a next frame is scheduled; the callback hears the new progress; the ranges are kept for non-negative elapsed time |
| MiningSimulation.Simulation.Play | frontend/src/composables/useMiningSimulation.js:184-191 | restart from 0 only when complete, then start playing and run the first frame; the ranges are kept |
| MiningSimulation.Simulation.Pause | frontend/src/composables/useMiningSimulation.js:193-199 | not playing and no pending frame, whatever the previous state, so pausing twice is pausing once |
| MiningSimulation.Simulation.TogglePlay | frontend/src/composables/useMiningSimulation.js:201-207 | pause when playing, leaving progress alone; play otherwise |
| Particles.FilterAppend | frontend/src/composables/useParticles.js:121 | filtering a concatenation is concatenating the filtered parts, so survivors keep their relative order |
| Particles.FilterSnoc | frontend/src/composables/useParticles.js:121 | filtering one more element appends it exactly when it is kept |
| Particles.FilterStep | frontend/src/composables/useParticles.js:121 | the filter of a one-longer prefix adds the next element exactly when it is kept |
| Particles.FilterExactly | frontend/src/composables/useParticles.js:121 | on distinct elements, an element survives exactly when it is flagged; survivors come from the array, are distinct, and are no more numerous |
| Particles.FilterAllOrNone | frontend/src/composables/useParticles.js:121 | keeping every element gives the array unchanged, and keeping none gives the empty array |
| Particles.MaxLifeOf | frontend/src/composables/useParticles.js:29 | a new particle's lifetime lies in [particleLife − 250, particleLife + 250) |
| Particles.SizeOf | frontend/src/composables/useParticles.js:31 | a new particle's size lies in [2, 4) |
| Particles.HueOf | frontend/src/composables/useParticles.js:35-39 | stress particles get hue [0, 30), relief particles [200, 240) |
| Particles.LifeAt | frontend/src/composables/useParticles.js:43-44 | life is 1 at the birth time and 0 when the age equals the lifetime |
| Particles.LifeWindow | frontend/src/composables/useParticles.js:43-46 | life 1 − age/maxLife is positive exactly while age < maxLife; it is 1 at birth and never above 1 afterwards |
| Particles.Turbulent | frontend/src/composables/useParticles.js:53-58 | the new velocity differs from 0.99 × the old one by less than 0.0099: a kick within ±0.01, then damping |
| Particles.Particle.constructor | frontend/src/composables/useParticles.js:22-40 | position, velocity and kind as given, life 1, born now, lifetime, size and hue from the draws |
| Particles.Particle.Update | frontend/src/composables/useParticles.js:42-61 | life becomes 1 − age/maxLife; a dead particle stops there; a live one moves by its old velocity · dt, then gets turbulence and damping |
| Particles.AliveMask | frontend/src/composables/useParticles.js:121 | one verdict per particle: alive exactly when its recomputed life is positive |
| Particles.AgeAll | frontend/src/composables/useParticles.js:121 | every particle ages in place, and the result is the live ones in their original order |
| Particles.ReliefCount | frontend/src/composables/useParticles.js:102 | `for (i = 0; i < emitRate / 2; i++)` runs ⌈emitRate / 2⌉ times: the least count not below emitRate / 2 |
| Particles.CapacityBound | frontend/src/composables/useParticles.js:79-102 | the most particles the array can hold, maxParticles + emitRate − 1, is non-negative |
| Particles.EmissionWithinBound | frontend/src/composables/useParticles.js:79-102 | either kind of emission keeps the count within the bound |
| Particles.CapacityOvershoot | frontend/src/composables/useParticles.js:79-81 | the bound is attained: one below the cap, a stress batch reaches maxParticles + emitRate − 1 (201 with the defaults) |
| Particles.ParticleSystem.constructor | frontend/src/composables/useParticles.js:7-16 | the defaults 200, 2000 and 2 for missing entries; no particles, no frame handle |
| Particles.ParticleSystem.NewStress | frontend/src/composables/useParticles.js:82-92 | a fresh stress particle at fraction t of the segment, moving along the direction with the drawn spread |
| Particles.ParticleSystem.NewRelief | frontend/src/composables/useParticles.js:103-112 | a fresh relief particle inside the area, moving at the speed in the drawn heading |
| Particles.ParticleSystem.EmitStress | frontend/src/composables/useParticles.js:78-94 | at or above the cap nothing changes; otherwise exactly emitRate fresh stress particles are appended after the unchanged old ones, each on the segment line[0] → line[1] |
| Particles.ParticleSystem.EmitRelief | frontend/src/composables/useParticles.js:99-114 | at or above the cap nothing changes; otherwise ⌈emitRate / 2⌉ fresh relief particles are appended after the unchanged old ones, each inside the area |
| Particles.ParticleSystem.Update | frontend/src/composables/useParticles.js:120-122 | the array becomes exactly the particles still alive, in their original order, each aged in place; every survivor's life is in (0, 1] |
| Particles.ParticleSystem.Clear | frontend/src/composables/useParticles.js:135-142 | the array becomes empty and the count is 0 |
| Particles.ParticleSystem.StartAnimation | frontend/src/composables/useParticles.js:148-165 | a pending frame is replaced by the new one and the loop's clock starts at the given time |
| Particles.ParticleSystem.AnimationFrame | frontend/src/composables/useParticles.js:153-162 | one frame updates with the seconds since the previous frame, remembers the time and schedules the next frame |
| Particles.ParticleSystem.StopAnimation | frontend/src/composables/useParticles.js:170-175 | no pending frame afterwards, whatever the previous state, so stopping twice is stopping once |
| Particles.MaxRadiusOf | frontend/src/composables/useParticles.js:217 | a new ripple's maximum radius lies in [100, 150) |
| Particles.RippleLifeWindow | frontend/src/composables/useParticles.js:225-226 | a ring's life 1 − radius/maxRadius is positive exactly while the radius is below the maximum |
| Particles.Ripple.constructor | frontend/src/composables/useParticles.js:213-221 | `IsNewRipple`: radius 0 and life 1 at the given point; maximum radius 100 + 50r, speed rippleSpeed + 20r and width 2 + 2r from the draws |
| Particles.Ripple.Update | frontend/src/composables/useParticles.js:223-227 | the radius grows by speed · dt; the ring lives on exactly while the radius is below its maximum |
| Particles.RippleMask | frontend/src/composables/useParticles.js:250 | one verdict per ripple: kept exactly when its grown radius stays below its maximum |
| Particles.GrowAll | frontend/src/composables/useParticles.js:250 | every ripple grows in place, and the result is those still inside their maximum radius, in order |
| Particles.RippleSystem.constructor | frontend/src/composables/useParticles.js:201-210 | the defaults 10, 50 and 800 for missing entries; no ripples; last emission at time 0 |
| Particles.RippleSystem.Emit | frontend/src/composables/useParticles.js:240-247 | nothing within the interval or at the cap; otherwise one fresh ripple is appended, exactly as the constructor leaves it (`IsNewRipple`: at the point, radius 0, life 1, maximum radius, speed and width from the draws, maximum radius in [100, 150)), and the time is recorded; the count never exceeds maxRipples |
| Particles.RippleSystem.Update | frontend/src/composables/useParticles.js:249-251 | the array becomes exactly the ripples still inside their maximum radius, in order, each grown in place |
| Particles.RippleSystem.Clear | frontend/src/composables/useParticles.js:257-259 | the array becomes empty |

## Left out

- The `worldToScreen` callback of `drawContours`, `drawGrid`, `drawBoreholes` and `pickNearestBorehole` (useIndicatorCanvas.js:51, 97, 154, 196) is `Viewport.WorldToScreen` at the `View` argument, the same view whose `scale` drives the line widths and the overlay. A caller that passes another mapping, or a mapping at a view other than `viewport`, is not modelled. `CellRectAtPositiveScale`, `FocusedMarkerRings` and the pixel radius of `PickNearestBorehole` rely on this choice.
- Vue reactivity (`ref`, `reactive`, `computed`, `onUnmounted`) is framework plumbing. Reactive records are class fields, and `computed` values are functions of the state.
- The unmount hooks (useMiningSimulation.js:274-276, useParticles.js:180-183) are not separate members. They are the call sequences Pause, and StopAnimation followed by Clear.
- `requestAnimationFrame`, `cancelAnimationFrame`, `performance.now` and `Date.now` belong to the host. Frame handles are `FrameId` arguments and times are real arguments.
  - The pending handle is an `Option` field.
  - Re-scheduling is a later call of `Tick` or `AnimationFrame`.
  - Nothing runs concurrently, so a second loop started by `play()` while one is already pending is not modelled.
- Particles.ParticleSystem.Update takes one wall-clock reading `now` for the whole tick, whereas the source reads `Date.now()` once per particle.
- Particles.ParticleSystem.EmitStress and Particles.ParticleSystem.EmitRelief stamp a whole batch with one `now`, whereas the source's `Particle` constructor reads `Date.now()` for every particle (useParticles.js:30).
- Particles.ParticleSystem.AnimationFrame separates the loop clock `now` (`performance.now()`) from the wall clock `wallNow`. The render callback it calls is not modelled.
- The default `dt = 0.016` of both `update` functions is not modelled; `dt` is always an argument.
- Particles.ParticleSystem.Update takes a turbulence draw for every particle by array position. The source draws only for survivors; the values are unconstrained either way.
- `Math.random` draws are supplied by the caller, in the `*Draw` datatypes and `Jitter`. They are required to lie in [0, 1) only where a bound depends on it.
- d3 (`ticks`, `contours`, `interpolateRgbBasis`) is a foreign library, so it is passed in as functions. Only the slicing, flattening and coordinate mapping around it are proved.
- `Math.cos`, `Math.sin` and `Math.PI` are uninterpreted fields of `Trig`. Each length lemma requires cos² + sin² = 1 at the one angle it uses, and `EastwardSweep` requires the four values at 0 and π/2.
- IEEE floating point is not modelled: all arithmetic is over unbounded reals.
  - NaN and the infinities appear only where `safeStats` tests for them (`JsNumber`), and as the NaN a short row yields in `sampleGridValue`.
  - Other JavaScript falsy values (`NaN` options, empty strings as numbers) are not modelled; options are `Option` values.
- Canvas pixel output is not modelled; drawing is the list of commands issued.
- `Particle.draw`, `Ripple.draw` and the particle and ripple `draw` loops only format HSL/rgba text and issue canvas calls. The hue is kept as a number.
- `drawMiniHeatmap` (useIndicatorCanvas.js:223-247) is DOM sizing and `devicePixelRatio` handling, which is I/O.
- The `frameRate` setting is kept in `Config`, with its default 60 (useMiningSimulation.js:11), but nothing reads it.
- The unused `scale` local of `stressZone` and `useRipples`' unused `animationId` have no effect and are not modelled.
- `useParticles`' `lastEmitTime` is declared but never read or written, so it is not modelled.
- IndicatorColor.GetPalette does not model the keys a JavaScript object inherits from `Object.prototype`. For a metric such as `"constructor"`, `"toString"` or `"__proto__"`, `METRIC_PALETTES[metric]` yields a function or an object rather than the mpi ramp. `getLegendGradient` then throws at `colors.join`, and `getColor` hands a non-array to `interpolateRgbBasis`. The model gives such a metric the mpi ramp.
- Default arguments that the model takes as ordinary arguments, without the default built in:
  - `radiusPx = 14` of pickNearestBorehole (useIndicatorCanvas.js:196);
  - `ratio = 0.8` of toMutedGray (useIndicatorCanvas.js:19), which its only caller overrides with 0.84;
  - `hoveredName = ''` and `focus = null` of drawBoreholes (useIndicatorCanvas.js:154);
  - `speed = 1` of emitStressParticles (useParticles.js:78) and `speed = 0.5` of emitReliefParticles (useParticles.js:99);
  - `type = 'stress'` of the `Particle` constructor (useParticles.js:22), whose callers always pass the type.
- Particles.ParticleOptions has integer `emitRate` and `maxParticles`. The source's loops `i < emitRate` and `i < emitRate / 2` also accept a fractional rate and run ⌈emitRate⌉ and ⌈emitRate / 2⌉ times (a rate of 2.5 emits 3 stress particles). `StressCount`, `ReliefCount` and `CapacityBound` cover integer rates only.
- Particles.ParticleSystem.Count has no contract of its own. `Clear` states that the count is 0 afterwards.
- Viewport.ViewportState.ZoomAt takes `minScale` and `maxScale` as arguments. The source's defaults 0.1 and 50 are not built in.
- Viewport.ViewportState.FitToBounds takes `padding` as an argument. The source's default 56 appears only in `FitScaleExample`.
- Particles.ParticleSystem.EmitStress requires a line of at least two points, because the source reads `line[0]` and `line[1]` and fails on a shorter line.
- Particles.ParticleSystem.constructor requires a lifetime above 250 ms, so that every drawn `maxLife` is positive. With a shorter lifetime, `1 − age/maxLife` could divide by zero or flip sign.
- MiningSimulation.Simulation.Tick keeps the ranges in `Valid()` only for a non-negative elapsed time and rate. With a negative `progressPerSecond` option, progress can drop below 0, as it does in the source.
