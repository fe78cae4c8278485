/** Shared vocabulary of the visualisation engine: optional values, planar
    points, axis-aligned bounds, the Math.min/Math.max/clamp idioms the
    composables use, and the host-supplied pieces (trigonometry, frame
    handles) that the model receives as parameters. */
module Common {

  datatype Option<+T> = None | Some(value: T)

  /** A point in world or screen space ({x, y} in the source). */
  datatype Point = Point(x: real, y: real)

  /** A geographic bounding box ({min_x, max_x, min_y, max_y}); the particle
      engine's emission area {minX, maxX, minY, maxY} has the same shape. */
  datatype Bounds = Bounds(minX: real, maxX: real, minY: real, maxY: real)

  /** Cosine, sine and the constant pi of the host's Math object. Nothing is
      assumed about them; lemmas that need a trigonometric fact require it at
      the one point where they use it. */
  datatype Trig = Trig(cos: real -> real, sin: real -> real, pi: real)

  /** A handle returned by requestAnimationFrame: always a positive integer,
      hence always truthy in the source's `if (animationId)` tests. */
  type FrameId = n: int | n > 0 witness 1

  /** Math.min of two numbers. */
  function Min(a: real, b: real): (r: real)
    ensures r <= a && r <= b
    ensures r == a || r == b
  {
    if a <= b then a else b
  }

  /** Math.max of two numbers. */
  function Max(a: real, b: real): (r: real)
    ensures r >= a && r >= b
    ensures r == a || r == b
  {
    if a >= b then a else b
  }

  /** The source's `Math.max(lo, Math.min(hi, v))`. */
  function Clamp(v: real, lo: real, hi: real): (r: real)
    ensures lo <= hi ==> lo <= r <= hi
    ensures lo <= v <= hi ==> r == v
    ensures v < lo ==> r == lo
    ensures lo <= hi && hi < v ==> r == hi
  {
    Max(lo, Min(hi, v))
  }

  /** Integer variant of Clamp, `Math.max(lo, Math.min(hi, v))` on indices. */
  function ClampInt(v: int, lo: int, hi: int): (r: int)
    ensures lo <= hi ==> lo <= r <= hi
    ensures lo <= v <= hi ==> r == v
  {
    var m := if v <= hi then v else hi;
    if m >= lo then m else lo
  }

  /** Linear interpolation a + (b - a) * t. */
  function Lerp(a: real, b: real, t: real): (r: real)
    ensures t == 0.0 ==> r == a
    ensures t == 1.0 ==> r == b
  {
    a + (b - a) * t
  }

  /** A number lies between two others, in either order. */
  predicate Between(v: real, a: real, b: real) {
    (a <= v <= b) || (b <= v <= a)
  }

  /** Scaling by a nonzero d and dividing by it again gives f back. */
  lemma MulDivCancel(f: real, d: real)
    requires d != 0.0
    ensures (f * d) / d == f
  {
  }

  /** A fraction t in [0, 1] of a non-negative length d lies in [0, d]. */
  lemma ScaledFraction(d: real, t: real)
    requires d >= 0.0 && 0.0 <= t <= 1.0
    ensures 0.0 <= d * t <= d
  {
    assert d * (1.0 - t) >= 0.0;
  }

  lemma LerpBetween(a: real, b: real, t: real)
    requires 0.0 <= t <= 1.0
    ensures Between(Lerp(a, b, t), a, b)
  {
    assert Lerp(a, b, t) == a + (b - a) * t;
    if a <= b {
      ScaledFraction(b - a, t);
    } else {
      ScaledFraction(a - b, t);
      var d := (a - b) * t;
      assert 0.0 <= d <= a - b;
      assert (b - a) * t == -d;
    }
  }

  /** Math.random() draws lie in [0, 1). */
  predicate InUnit(r: real) {
    0.0 <= r < 1.0
  }
}
