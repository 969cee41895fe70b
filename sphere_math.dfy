/** The arithmetic of the hero section's rotating point cloud: sphere
    sampling, the damped pointer follow, the automatic rotation, the
    yaw-then-pitch rotation, the perspective projection, the proximity-edge
    relation and the point opacity.

    Numbers are reals. The functions of the JavaScript Math object that the
    animation uses (sin, cos, acos, sqrt and the constant PI) are a parameter
    of type MathFns; the only fact assumed about them, and only where it is
    needed, is sin(a)^2 + cos(a)^2 = 1 (Pythagorean). */
module SphereMath {
  import opened Wrappers

  /** Number of points on the sphere. */
  const NumPoints: nat := 80
  /** The sphere radius is this fraction of the smaller canvas side. */
  const RadiusFactor: real := 0.25
  /** Distance from the eye to the projection plane. */
  const FocalLength: real := 400.0
  /** Fraction of the gap to the pointer target closed on each frame. */
  const Damping: real := 0.05
  /** Pointer offset from the canvas centre (pixels) to target angle. */
  const Sensitivity: real := 0.0005
  /** Milliseconds of wall-clock time to animation time. */
  const TimeScale: real := 0.0005
  /** Amplitude of the automatic pitch oscillation. */
  const AutoPitchAmplitude: real := 0.2
  /** Rate of the automatic yaw drift, per unit of animation time. */
  const AutoYawRate: real := 0.3
  /** Two projected points closer than this (pixels) are joined by an edge. */
  const EdgeThreshold: real := 80.0
  /** Opacity never drops below this value. */
  const OpacityFloor: real := 0.1

  datatype MathFns = MathFns(sin: real -> real, cos: real -> real, acos: real -> real,
                             sqrt: real -> real, pi: real)

  /** The one property of sin and cos that the proofs rely on. */
  ghost predicate Pythagorean(m: MathFns)
  {
    forall a :: m.sin(a) * m.sin(a) + m.cos(a) * m.cos(a) == 1.0
  }

  datatype Point3D = Point3D(x: real, y: real, z: real)

  /** Squared Euclidean length. */
  function Norm2(p: Point3D): real
  {
    p.x * p.x + p.y * p.y + p.z * p.z
  }

  function Min(a: nat, b: nat): (m: nat)
    ensures m <= a && m <= b
    ensures m == a || m == b
  {
    if a <= b then a else b
  }

  /** The sphere radius for a canvas of the given size: a quarter of the
      smaller side. */
  function SphereRadius(width: nat, height: nat): (r: real)
    ensures 0.0 <= r
    ensures 4.0 * r <= width as real && 4.0 * r <= height as real
    ensures 4.0 * r == width as real || 4.0 * r == height as real
  {
    Min(width, height) as real * RadiusFactor
  }

  // ---------------------------------------------------------------------
  // Sphere sampling (golden-angle spiral)
  // ---------------------------------------------------------------------

  /** Point number i of the spiral on a sphere of the given radius. */
  function SpherePoint(m: MathFns, radius: real, i: nat): Point3D
  {
    var theta := m.acos(1.0 - 2.0 * (i as real + 0.5) / (NumPoints as real));
    var phi := m.pi * (1.0 + m.sqrt(5.0)) * (i as real);
    Point3D(radius * m.sin(theta) * m.cos(phi),
            radius * m.sin(theta) * m.sin(phi),
            radius * m.cos(theta))
  }

  lemma ScaledUnit(a: real, c: real, s: real)
    requires c * c + s * s == 1.0
    ensures (a * c) * (a * c) + (a * s) * (a * s) == a * a
  {
    calc {
      (a * c) * (a * c) + (a * s) * (a * s);
      a * a * (c * c + s * s);
      a * a;
    }
  }

  /** Every sampled point lies on the sphere, whatever its index. */
  lemma SpherePointOnSphere(m: MathFns, radius: real, i: nat)
    requires Pythagorean(m)
    ensures Norm2(SpherePoint(m, radius, i)) == radius * radius
  {
    var theta := m.acos(1.0 - 2.0 * (i as real + 0.5) / (NumPoints as real));
    var phi := m.pi * (1.0 + m.sqrt(5.0)) * (i as real);
    var st, ct := m.sin(theta), m.cos(theta);
    ScaledUnit(radius * st, m.cos(phi), m.sin(phi));
    ScaledUnit(radius, st, ct);
  }

  // ---------------------------------------------------------------------
  // Rotation
  // ---------------------------------------------------------------------

  /** An angle given by its cosine and sine. */
  datatype Angle = Angle(cos: real, sin: real)

  predicate Unit(a: Angle)
  {
    a.cos * a.cos + a.sin * a.sin == 1.0
  }

  function AngleOf(m: MathFns, theta: real): (a: Angle)
    ensures Pythagorean(m) ==> Unit(a)
  {
    Angle(m.cos(theta), m.sin(theta))
  }

  /** Rotation about the vertical axis by yaw, then about the horizontal
      axis by pitch. */
  function Rotate(p: Point3D, yaw: Angle, pitch: Angle): Point3D
  {
    var x := p.x * yaw.cos - p.z * yaw.sin;
    var z := p.z * yaw.cos + p.x * yaw.sin;
    var y := p.y * pitch.cos - z * pitch.sin;
    Point3D(x, y, z * pitch.cos + p.y * pitch.sin)
  }

  lemma PlaneRotation(a: real, b: real, c: real, s: real)
    requires c * c + s * s == 1.0
    ensures (a * c - b * s) * (a * c - b * s) + (b * c + a * s) * (b * c + a * s) == a * a + b * b
  {
    calc {
      (a * c - b * s) * (a * c - b * s) + (b * c + a * s) * (b * c + a * s);
      a * a * (c * c + s * s) + b * b * (c * c + s * s);
      a * a + b * b;
    }
  }

  /** The rotation keeps every point at its distance from the origin. */
  lemma RotationPreservesNorm(p: Point3D, yaw: Angle, pitch: Angle)
    requires Unit(yaw) && Unit(pitch)
    ensures Norm2(Rotate(p, yaw, pitch)) == Norm2(p)
  {
    var z := p.z * yaw.cos + p.x * yaw.sin;
    PlaneRotation(p.x, p.z, yaw.cos, yaw.sin);
    PlaneRotation(p.y, z, pitch.cos, pitch.sin);
  }

  /** A point on a sphere of radius r has depth between -r and r. */
  lemma DepthWithinRadius(q: Point3D, r: real)
    requires 0.0 <= r && Norm2(q) == r * r
    ensures -r <= q.z <= r
  {
    assert q.z * q.z <= r * r;
    if q.z > r {
      MulPositive(q.z - r, q.z + r);
      assert false;
    }
    if q.z < -r {
      MulPositive(r - q.z, -r - q.z);
      assert false;
    }
  }

  lemma MulPositive(a: real, b: real)
    requires 0.0 < a && 0.0 < b
    ensures 0.0 < a * b
  {
  }

  // ---------------------------------------------------------------------
  // Perspective projection
  // ---------------------------------------------------------------------

  /** A projected point. When FocalLength + z is zero the JavaScript
      quotient 400 / (400 + z) is Infinity and the screen coordinates are
      infinite or NaN; such a point is AtInfinity and keeps only its depth. */
  datatype Projected = OnScreen(x: real, y: real, scale: real, z: real) | AtInfinity(z: real)

  /** Perspective projection of an already rotated point onto a canvas of
      the given size, centred on the canvas. */
  function Perspective(q: Point3D, width: nat, height: nat): (r: Projected)
    ensures r.z == q.z
    ensures r.OnScreen? <==> FocalLength + q.z != 0.0
    ensures r.OnScreen? ==> r.scale * (FocalLength + q.z) == FocalLength
    ensures r.OnScreen? ==> r.x - width as real / 2.0 == q.x * r.scale
    ensures r.OnScreen? ==> r.y - height as real / 2.0 == q.y * r.scale
  {
    if FocalLength + q.z == 0.0 then AtInfinity(q.z)
    else
      var scale := FocalLength / (FocalLength + q.z);
      OnScreen(q.x * scale + width as real / 2.0, q.y * scale + height as real / 2.0, scale, q.z)
  }

  /** The projection of a whole point set, in order: output i is the
      rotated and projected input i. */
  function Project(points: seq<Point3D>, yaw: Angle, pitch: Angle, width: nat, height: nat): (r: seq<Projected>)
    ensures |r| == |points|
    ensures forall i :: 0 <= i < |points| ==> r[i] == Perspective(Rotate(points[i], yaw, pitch), width, height)
  {
    if points == [] then []
    else [Perspective(Rotate(points[0], yaw, pitch), width, height)] + Project(points[1..], yaw, pitch, width, height)
  }

  lemma DivAntitone(a: real, b: real, c: real)
    requires 0.0 <= a && 0.0 < b <= c
    ensures a / c <= a / b
  {
    assert a / b * b == a;
    assert a / c * c == a;
  }

  /** Points further from the eye (larger depth) are drawn smaller. */
  lemma ScaleDecreasesWithDepth(q1: Point3D, q2: Point3D, width: nat, height: nat)
    requires -FocalLength < q1.z <= q2.z
    ensures Perspective(q1, width, height).OnScreen? && Perspective(q2, width, height).OnScreen?
    ensures 0.0 < Perspective(q2, width, height).scale <= Perspective(q1, width, height).scale
    ensures q1.z < q2.z ==> Perspective(q2, width, height).scale < Perspective(q1, width, height).scale
  {
    DivAntitone(FocalLength, FocalLength + q1.z, FocalLength + q2.z);
  }

  /** On a sphere of radius r smaller than the focal length every point
      projects to a finite screen position, with a positive scale between
      400 / (400 + r) and 400 / (400 - r) and depth in [-r, r]. */
  lemma ProjectionOnSphere(points: seq<Point3D>, radius: real, yaw: Angle, pitch: Angle, width: nat, height: nat)
    requires Unit(yaw) && Unit(pitch)
    requires 0.0 <= radius < FocalLength
    requires forall i :: 0 <= i < |points| ==> Norm2(points[i]) == radius * radius
    ensures forall i :: 0 <= i < |points| ==>
      var p := Project(points, yaw, pitch, width, height)[i];
      && p.OnScreen?
      && -radius <= p.z <= radius
      && FocalLength / (FocalLength + radius) <= p.scale <= FocalLength / (FocalLength - radius)
  {
    forall i | 0 <= i < |points|
      ensures var p := Project(points, yaw, pitch, width, height)[i];
        && p.OnScreen?
        && -radius <= p.z <= radius
        && FocalLength / (FocalLength + radius) <= p.scale <= FocalLength / (FocalLength - radius)
    {
      var q := Rotate(points[i], yaw, pitch);
      RotationPreservesNorm(points[i], yaw, pitch);
      DepthWithinRadius(q, radius);
      DivAntitone(FocalLength, FocalLength + q.z, FocalLength + radius);
      DivAntitone(FocalLength, FocalLength - radius, FocalLength + q.z);
    }
  }

  // ---------------------------------------------------------------------
  // Proximity edges
  // ---------------------------------------------------------------------

  /** An edge between projected points number from and to. */
  datatype Segment = Segment(from: nat, to: nat)

  /** Two projected points are joined when both are on screen and their
      planar distance is strictly below the threshold, compared squared. */
  predicate Near(p: Projected, q: Projected)
  {
    && p.OnScreen? && q.OnScreen?
    && (p.x - q.x) * (p.x - q.x) + (p.y - q.y) * (p.y - q.y) < EdgeThreshold * EdgeThreshold
  }

  /** Lexicographic order on segments: the order of the nested i, j loop. */
  predicate Before(a: Segment, b: Segment)
  {
    a.from < b.from || (a.from == b.from && a.to < b.to)
  }

  ghost predicate StrictlySorted(s: seq<Segment>)
  {
    forall k, l :: 0 <= k < l < |s| ==> Before(s[k], s[l])
  }

  /** edges holds exactly the pairs i < j of near points, each once, in
      loop order. */
  ghost predicate IsEdgeList(pts: seq<Projected>, edges: seq<Segment>)
  {
    && (forall i: nat, j: nat :: Segment(i, j) in edges <==> i < j < |pts| && Near(pts[i], pts[j]))
    && StrictlySorted(edges)
  }

  /** Two strictly sorted segment lists with the same elements are equal. */
  lemma {:induction false} SortedUnique(a: seq<Segment>, b: seq<Segment>)
    requires StrictlySorted(a) && StrictlySorted(b)
    requires forall e :: e in a <==> e in b
    ensures a == b
    decreases |a|
  {
    assert a != [] ==> a[0] in b;
    assert b != [] ==> b[0] in a;
    if a != [] && b != [] {
      var k :| 0 <= k < |b| && b[k] == a[0];
      var j :| 0 <= j < |a| && a[j] == b[0];
      assert k == 0 || j == 0;
      forall e
        ensures e in a[1..] <==> e in b[1..]
      {
        if e in a[1..] {
          var k :| 1 <= k < |a| && a[k] == e;
          assert Before(a[0], a[k]);
          assert e in b;
        }
        if e in b[1..] {
          var k :| 1 <= k < |b| && b[k] == e;
          assert Before(b[0], b[k]);
          assert e in a;
        }
      }
      SortedUnique(a[1..], b[1..]);
      assert a == [a[0]] + a[1..] && b == [b[0]] + b[1..];
    }
  }

  /** The edges of a frame are determined by its projected points. */
  lemma EdgeListUnique(pts: seq<Projected>, e1: seq<Segment>, e2: seq<Segment>)
    requires IsEdgeList(pts, e1) && IsEdgeList(pts, e2)
    ensures e1 == e2
  {
    forall e
      ensures e in e1 <==> e in e2
    {
      assert e == Segment(e.from, e.to);
    }
    SortedUnique(e1, e2);
  }

  /** Comparing the hypotenuse d with 80 is the same as comparing the sum
      of squares with 6400. */
  lemma HypotAgrees(dx: real, dy: real, d: real)
    requires 0.0 <= d && d * d == dx * dx + dy * dy
    ensures d < EdgeThreshold <==> dx * dx + dy * dy < EdgeThreshold * EdgeThreshold
  {
    if d < EdgeThreshold {
      assert d * d <= d * EdgeThreshold;
      assert d * EdgeThreshold < EdgeThreshold * EdgeThreshold;
      assert dx * dx + dy * dy < EdgeThreshold * EdgeThreshold;
    } else {
      assert d * d >= d * EdgeThreshold;
      assert d * EdgeThreshold >= EdgeThreshold * EdgeThreshold;
      assert !(dx * dx + dy * dy < EdgeThreshold * EdgeThreshold);
    }
  }

  // ---------------------------------------------------------------------
  // Opacity
  // ---------------------------------------------------------------------

  /** max(0.1, (z + radius) / (2 radius)). In JavaScript the quotient is
      NaN only when z + radius is 0 as well; a nonzero z over 0 would give
      an infinity instead. That case cannot arise: with radius 0 every point
      is the origin, so every rotated depth is 0 and the quotient is 0 / 0,
      NaN, for every point. The model therefore returns None exactly when
      the radius is 0. */
  function Opacity(z: real, radius: real): (o: Option<real>)
    ensures o.None? <==> radius == 0.0
    ensures o.Some? ==> OpacityFloor <= o.value
    ensures o.Some? ==> (z + radius) / (2.0 * radius) <= o.value
    ensures o.Some? ==> o.value == OpacityFloor || o.value == (z + radius) / (2.0 * radius)
  {
    if radius == 0.0 then None
    else
      var depth := (z + radius) / (2.0 * radius);
      Some(if depth < OpacityFloor then OpacityFloor else depth)
  }

  /** For a depth on the sphere the opacity lies in [0.1, 1]. */
  lemma OpacityInRange(z: real, radius: real)
    requires 0.0 < radius && -radius <= z <= radius
    ensures Opacity(z, radius).Some?
    ensures OpacityFloor <= Opacity(z, radius).value <= 1.0
  {
    var depth := (z + radius) / (2.0 * radius);
    assert depth * (2.0 * radius) == z + radius;
    DivMonotone(z + radius, 2.0 * radius, 2.0 * radius);
    assert (2.0 * radius) / (2.0 * radius) == 1.0;
  }

  lemma DivMonotone(a1: real, a2: real, b: real)
    requires a1 <= a2 && 0.0 < b
    ensures a1 / b <= a2 / b
  {
    assert a2 / b - a1 / b == (a2 - a1) / b;
    assert (a2 - a1) / b * b == a2 - a1;
  }

  /** Opacity grows with depth. */
  lemma OpacityMonotone(z1: real, z2: real, radius: real)
    requires 0.0 < radius && z1 <= z2
    ensures Opacity(z1, radius).value <= Opacity(z2, radius).value
  {
    var d1 := (z1 + radius) / (2.0 * radius);
    var d2 := (z2 + radius) / (2.0 * radius);
    assert d1 * (2.0 * radius) == z1 + radius;
    assert d2 * (2.0 * radius) == z2 + radius;
    if d1 > d2 {
      assert d1 * (2.0 * radius) > d2 * (2.0 * radius);
    }
  }

  // ---------------------------------------------------------------------
  // Orientation: pointer target, damping, automatic rotation
  // ---------------------------------------------------------------------

  /** The target angle for a pointer coordinate: the offset from the canvas
      centre, scaled by the sensitivity. */
  function PointerTarget(client: real, origin: real, extent: nat): (t: real)
    ensures t == 0.0 <==> client - origin == extent as real / 2.0
    ensures 0.0 < t <==> client - origin > extent as real / 2.0
  {
    (client - origin - extent as real / 2.0) * Sensitivity
  }

  /** One damping step towards the target: the gap shrinks to 0.95 of
      itself and keeps its sign. */
  function Damp(current: real, target: real): (next: real)
    ensures next - target == (1.0 - Damping) * (current - target)
    ensures current < target ==> current < next < target
    ensures target < current ==> target < next < current
    ensures current == target ==> next == target
  {
    current + (target - current) * Damping
  }

  /** The value after the given number of damping steps towards a fixed
      target. */
  function Settle(current: real, target: real, ticks: nat): real
  {
    if ticks == 0 then current else Damp(Settle(current, target, ticks - 1), target)
  }

  function Pow(b: real, n: nat): real
  {
    if n == 0 then 1.0 else b * Pow(b, n - 1)
  }

  /** After n steps towards a fixed target the gap is 0.95^n times the
      initial gap. */
  lemma {:induction false} SettleGap(current: real, target: real, ticks: nat)
    ensures Settle(current, target, ticks) - target == Pow(1.0 - Damping, ticks) * (current - target)
  {
    if ticks > 0 {
      SettleGap(current, target, ticks - 1);
    }
  }

  /** Each step towards a fixed target moves towards it and never past it. */
  lemma {:induction false} SettleMonotone(current: real, target: real, ticks: nat)
    ensures target <= current ==> target <= Settle(current, target, ticks + 1) <= Settle(current, target, ticks)
    ensures current <= target ==> Settle(current, target, ticks) <= Settle(current, target, ticks + 1) <= target
  {
    if ticks > 0 {
      SettleMonotone(current, target, ticks - 1);
    }
  }

  lemma {:induction false} PowAdd(b: real, m: nat, n: nat)
    ensures Pow(b, m + n) == Pow(b, m) * Pow(b, n)
  {
    if m > 0 {
      PowAdd(b, m - 1, n);
      assert Pow(b, m + n) == b * Pow(b, m - 1 + n);
    }
  }

  lemma {:induction false} PowAntitone(b: real, m: nat, n: nat)
    requires 0.0 <= b <= 1.0 && m <= n
    ensures 0.0 <= Pow(b, n) <= Pow(b, m)
  {
    if m < n {
      PowAntitone(b, m, n - 1);
      var p := Pow(b, n - 1);
      assert 0.0 <= p;
      assert Pow(b, n) == b * p;
      MulBound(b, p, 1.0, p);
      assert b * p <= p;
    } else {
      PowNonnegative(b, n);
    }
  }

  lemma {:induction false} PowNonnegative(b: real, n: nat)
    requires 0.0 <= b
    ensures 0.0 <= Pow(b, n)
  {
    if n > 0 {
      PowNonnegative(b, n - 1);
    }
  }

  lemma MulBound(a: real, b: real, ba: real, bb: real)
    requires 0.0 <= a <= ba && 0.0 <= b <= bb
    ensures a * b <= ba * bb
  {
    assert a * b <= ba * b <= ba * bb;
  }

  lemma SquareBound(b: real, n: nat, bound: real)
    requires 0.0 <= b && 0.0 <= Pow(b, n) <= bound
    ensures 0.0 <= Pow(b, n + n) <= bound * bound
  {
    PowAdd(b, n, n);
    MulBound(Pow(b, n), Pow(b, n), bound, bound);
  }

  /** 0.95^200 is below 0.0001. */
  lemma DampingAfter200()
    ensures 0.0 <= Pow(1.0 - Damping, 200) < 0.0001
  {
    var b := 1.0 - Damping;
    assert Pow(b, 1) == b * Pow(b, 0) == b;
    assert Pow(b, 2) == b * b == 0.9025;
    SquareBound(b, 2, 0.9025);
    SquareBound(b, 4, 0.8146);
    SquareBound(b, 8, 0.6636);
    SquareBound(b, 16, 0.4404);
    SquareBound(b, 32, 0.194);
    SquareBound(b, 64, 0.0377);
    assert 0.0 <= Pow(b, 128) <= 0.00143;
    PowAdd(b, 128, 64);
    MulBound(Pow(b, 128), Pow(b, 64), 0.00143, 0.0377);
    PowAntitone(b, 192, 200);
  }

  /** Holding the pitch target at 0.3 from rest for 200 frames brings the
      pitch within 0.001 of it. */
  lemma SettleWithin200Frames()
    ensures 0.3 - 0.001 < Settle(0.0, 0.3, 200) <= 0.3
  {
    SettleGap(0.0, 0.3, 200);
    DampingAfter200();
  }

  /** The per-frame rotation: the damped state plus the automatic offsets. */
  datatype Attitude = Attitude(pitch: real, yaw: real)

  /** The rotation drawn at wall-clock time now (milliseconds): the
      automatic offsets sin(t) * 0.2 and t * 0.3, with t = now * 0.0005,
      added to the damped state. */
  function Effective(m: MathFns, rotationX: real, rotationY: real, now: real): Attitude
  {
    var time := now * TimeScale;
    Attitude(rotationX + m.sin(time) * AutoPitchAmplitude, rotationY + time * AutoYawRate)
  }

  lemma UnitBound(c: real, s: real)
    requires c * c + s * s == 1.0
    ensures -1.0 <= s <= 1.0
  {
  }

  /** The automatic pitch offset stays within 0.2 of the damped pitch; the
      automatic yaw offset grows with time. */
  lemma AutoRotationOffsets(m: MathFns, rotationX: real, rotationY: real, now1: real, now2: real)
    requires Pythagorean(m)
    requires now1 < now2
    ensures -AutoPitchAmplitude <= Effective(m, rotationX, rotationY, now1).pitch - rotationX <= AutoPitchAmplitude
    ensures Effective(m, rotationX, rotationY, now1).yaw < Effective(m, rotationX, rotationY, now2).yaw
  {
    var time := now1 * TimeScale;
    UnitBound(m.cos(time), m.sin(time));
  }

  // ---------------------------------------------------------------------
  // One frame, end to end
  // ---------------------------------------------------------------------

  /** Every sampled point, rotated by any attitude, is drawn with an
      opacity between 0.1 and 1, and, when the sphere is smaller than the
      focal length, at a finite position with a positive scale. */
  lemma FramePointFacts(m: MathFns, radius: real, i: nat, att: Attitude, width: nat, height: nat)
    requires Pythagorean(m)
    requires 0.0 < radius
    ensures var q := Rotate(SpherePoint(m, radius, i), AngleOf(m, att.yaw), AngleOf(m, att.pitch));
      && OpacityFloor <= Opacity(q.z, radius).value <= 1.0
      && (radius < FocalLength ==> Perspective(q, width, height).OnScreen? && 0.0 < Perspective(q, width, height).scale)
  {
    var p := SpherePoint(m, radius, i);
    var q := Rotate(p, AngleOf(m, att.yaw), AngleOf(m, att.pitch));
    SpherePointOnSphere(m, radius, i);
    RotationPreservesNorm(p, AngleOf(m, att.yaw), AngleOf(m, att.pitch));
    DepthWithinRadius(q, radius);
    OpacityInRange(q.z, radius);
  }
}
