/** The canvas animation of the hero section: the state the animation
    effect keeps in its closure (canvas size, sphere radius, the point list,
    the damped rotation and the pointer target) and the code that updates
    it: point generation, the pointer handler, one animation frame and the
    resize handler. Drawing on the canvas is not modelled; a frame returns
    what it would draw (projected points, edges, opacities). */
module Hero {
  import opened Wrappers
  import opened SphereMath

  /** What one animation frame draws. */
  datatype Frame = Frame(attitude: Attitude, projected: seq<Projected>, edges: seq<Segment>,
                         opacities: seq<Option<real>>)

  /** Fills the point list with NumPoints sphere points, one per
      iteration, in index order. */
  method GeneratePoints(m: MathFns, radius: real) returns (points: seq<Point3D>)
    ensures |points| == NumPoints
    ensures forall i :: 0 <= i < |points| ==> points[i] == SpherePoint(m, radius, i)
    ensures Pythagorean(m) ==> forall i :: 0 <= i < |points| ==> Norm2(points[i]) == radius * radius
  {
    points := [];
    var i := 0;
    while i < NumPoints
      invariant 0 <= i <= NumPoints
      invariant |points| == i
      invariant forall k :: 0 <= k < i ==> points[k] == SpherePoint(m, radius, k)
    {
      points := points + [SpherePoint(m, radius, i)];
      i := i + 1;
    }
    if Pythagorean(m) {
      forall k | 0 <= k < |points|
        ensures Norm2(points[k]) == radius * radius
      {
        SpherePointOnSphere(m, radius, k);
      }
    }
  }

  /** The nested loop over pairs i < j that collects the proximity edges. */
  method ConnectNearby(pts: seq<Projected>) returns (edges: seq<Segment>)
    ensures IsEdgeList(pts, edges)
  {
    edges := [];
    var i := 0;
    while i < |pts|
      invariant 0 <= i <= |pts|
      invariant forall a: nat, b: nat :: Segment(a, b) in edges <==> a < i && a < b < |pts| && Near(pts[a], pts[b])
      invariant StrictlySorted(edges)
      invariant forall k :: 0 <= k < |edges| ==> edges[k].from < i
    {
      var j := i + 1;
      while j < |pts|
        invariant i + 1 <= j <= |pts|
        invariant forall a: nat, b: nat :: Segment(a, b) in edges <==>
          a < b < |pts| && (a < i || (a == i && b < j)) && Near(pts[a], pts[b])
        invariant StrictlySorted(edges)
        invariant forall k :: 0 <= k < |edges| ==> Before(edges[k], Segment(i, j))
      {
        if Near(pts[i], pts[j]) {
          edges := edges + [Segment(i, j)];
        }
        j := j + 1;
      }
      i := i + 1;
    }
  }

  class SphereAnimation {
    /** The Math functions used by the animation. */
    const math: MathFns
    /** Sphere radius, fixed when the animation starts. */
    const radius: real
    /** The sampled sphere, fixed when the animation starts. */
    const points: seq<Point3D>
    var width: nat
    var height: nat
    /** Damped rotation about the horizontal axis (pitch). */
    var rotationX: real
    /** Damped rotation about the vertical axis (yaw). */
    var rotationY: real
    /** Yaw target, from the pointer's horizontal offset. */
    var mouseX: real
    /** Pitch target, from the pointer's vertical offset. */
    var mouseY: real

    /** The point list is the sampled sphere of the setup radius. */
    ghost predicate Valid()
    {
      && 0.0 <= radius
      && |points| == NumPoints
      && forall i :: 0 <= i < |points| ==> points[i] == SpherePoint(math, radius, i)
    }

    /** Setup: size the canvas, fix the radius, sample the sphere and start
        at rest with a centred pointer target. */
    constructor (m: MathFns, offsetWidth: nat, offsetHeight: nat)
      ensures Valid()
      ensures math == m && width == offsetWidth && height == offsetHeight
      ensures radius == SphereRadius(offsetWidth, offsetHeight)
      ensures rotationX == 0.0 && rotationY == 0.0 && mouseX == 0.0 && mouseY == 0.0
    {
      math := m;
      width := offsetWidth;
      height := offsetHeight;
      var r := SphereRadius(offsetWidth, offsetHeight);
      radius := r;
      var pts := GeneratePoints(m, r);
      points := pts;
      rotationX, rotationY := 0.0, 0.0;
      mouseX, mouseY := 0.0, 0.0;
    }

    /** Pointer move: the targets become the pointer's offsets from the
        canvas centre, scaled; nothing else changes. */
    method HandleMouseMove(clientX: real, clientY: real, rectLeft: real, rectTop: real)
      modifies this`mouseX, this`mouseY
      ensures mouseX == PointerTarget(clientX, rectLeft, width)
      ensures mouseY == PointerTarget(clientY, rectTop, height)
    {
      mouseX := (clientX - rectLeft - width as real / 2.0) * Sensitivity;
      mouseY := (clientY - rectTop - height as real / 2.0) * Sensitivity;
    }

    /** Resize: only the canvas size changes; the radius and the points
        stay as they were at setup. */
    method HandleResize(offsetWidth: nat, offsetHeight: nat)
      modifies this`width, this`height
      ensures width == offsetWidth && height == offsetHeight
      ensures rotationX == old(rotationX) && rotationY == old(rotationY)
      ensures mouseX == old(mouseX) && mouseY == old(mouseY)
    {
      width := offsetWidth;
      height := offsetHeight;
    }

    /** One animation frame at wall-clock time now (milliseconds). The
        damped rotation follows the targets crosswise (rotationX follows
        mouseY, rotationY follows mouseX); the automatic offsets enter only
        the rotation drawn in this frame. */
    method Animate(now: real) returns (frame: Frame)
      requires Valid()
      modifies this`rotationX, this`rotationY
      ensures rotationX == Damp(old(rotationX), mouseY)
      ensures rotationY == Damp(old(rotationY), mouseX)
      ensures frame.attitude == Effective(math, rotationX, rotationY, now)
      ensures frame.projected ==
        Project(points, AngleOf(math, frame.attitude.yaw), AngleOf(math, frame.attitude.pitch), width, height)
      ensures IsEdgeList(frame.projected, frame.edges)
      ensures |frame.opacities| == |points|
      ensures forall k :: 0 <= k < |points| ==> frame.opacities[k] == Opacity(frame.projected[k].z, radius)
      ensures Pythagorean(math) && 0.0 < radius ==>
        forall k :: 0 <= k < |points| ==>
          frame.opacities[k].Some? && OpacityFloor <= frame.opacities[k].value <= 1.0
      ensures Pythagorean(math) && 0.0 < radius < FocalLength ==>
        forall k :: 0 <= k < |points| ==> frame.projected[k].OnScreen? && 0.0 < frame.projected[k].scale
    {
      rotationX := rotationX + (mouseY - rotationX) * Damping;
      rotationY := rotationY + (mouseX - rotationY) * Damping;

      var time := now * TimeScale;
      var autoRotX := math.sin(time) * AutoPitchAmplitude;
      var autoRotY := time * AutoYawRate;
      var finalRotX := rotationX + autoRotX;
      var finalRotY := rotationY + autoRotY;

      var projected := Project(points, AngleOf(math, finalRotY), AngleOf(math, finalRotX), width, height);
      var edges := ConnectNearby(projected);
      var opacities := seq(|projected|, k requires 0 <= k < |projected| => Opacity(projected[k].z, radius));
      frame := Frame(Attitude(finalRotX, finalRotY), projected, edges, opacities);

      if Pythagorean(math) && 0.0 < radius {
        forall k | 0 <= k < |points|
          ensures frame.opacities[k].Some? && OpacityFloor <= frame.opacities[k].value <= 1.0
          ensures radius < FocalLength ==> frame.projected[k].OnScreen? && 0.0 < frame.projected[k].scale
        {
          FramePointFacts(math, radius, k, frame.attitude, width, height);
        }
      }
    }
  }

  /** The animation effect: without a canvas or without a 2D context it
      does nothing; otherwise it sets up the state and draws the first
      frame at time now, from the state at rest: the damping step leaves
      the rotation at 0, so the frame is drawn at the automatic offsets
      alone. */
  method Mount(hasCanvas: bool, hasContext: bool, m: MathFns, offsetWidth: nat, offsetHeight: nat, now: real)
    returns (anim: SphereAnimation?, first: Option<Frame>)
    ensures anim == null <==> !(hasCanvas && hasContext)
    ensures first.Some? <==> anim != null
    ensures anim != null ==> fresh(anim) && anim.Valid() && anim.math == m
    ensures anim != null ==> anim.width == offsetWidth && anim.height == offsetHeight
    ensures anim != null ==> anim.radius == SphereRadius(offsetWidth, offsetHeight)
    ensures anim != null ==> anim.mouseX == 0.0 && anim.mouseY == 0.0
    ensures anim != null ==> anim.rotationX == 0.0 && anim.rotationY == 0.0
    ensures first.Some? ==> anim != null && first.value.attitude == Effective(m, 0.0, 0.0, now)
    ensures first.Some? ==>
      && anim != null
      && first.value.projected ==
           Project(anim.points, AngleOf(m, first.value.attitude.yaw), AngleOf(m, first.value.attitude.pitch),
                   offsetWidth, offsetHeight)
    ensures first.Some? ==> IsEdgeList(first.value.projected, first.value.edges)
    ensures first.Some? ==>
      && anim != null
      && |first.value.opacities| == NumPoints
      && forall k :: 0 <= k < NumPoints ==> first.value.opacities[k] == Opacity(first.value.projected[k].z, anim.radius)
  {
    if !hasCanvas || !hasContext {
      return null, None;
    }
    anim := new SphereAnimation(m, offsetWidth, offsetHeight);
    var frame := anim.Animate(now);
    first := Some(frame);
  }
}
