/** The orbit controller of the project sphere: pointer and touch drags and
    project focus requests set a target rotation (pitch about x, yaw about
    y), an idle drift advances the target yaw, and every frame the current
    rotation eases toward the target. Angles are real numbers; `pi` is a
    positive constant given to the controller. */
module Orbit {
  import opened MathOps

  /** Yaw added to the target each frame while auto-rotation is on. */
  const AutoRotateSpeed := 0.0008
  /** Fraction of the remaining distance covered each frame. */
  const Smoothing := 0.05
  const MouseYawGain := 0.005
  const MousePitchGain := 0.003
  const TouchYawGain := 0.008
  const TouchPitchGain := 0.005

  /** The target pitch after a drag by `delta` pixels: kept within pi/3 of
      level, and unchanged by the clamp while it is within that range. */
  function DragPitch(pi: real, pitch: real, delta: real, gain: real): (r: real)
    requires pi > 0.0
    ensures -pi / 3.0 <= r <= pi / 3.0
    ensures -pi / 3.0 <= pitch + delta * gain <= pi / 3.0 ==> r == pitch + delta * gain
    ensures pitch + delta * gain > pi / 3.0 ==> r == pi / 3.0
    ensures pitch + delta * gain < -pi / 3.0 ==> r == -pi / 3.0
  {
    Clamp(-pi / 3.0, pi / 3.0, pitch + delta * gain)
  }

  /** The target pitch of a focus request: kept within pi/2.5 of level. */
  function FocusPitch(pi: real, pitch: real): (r: real)
    requires pi > 0.0
    ensures -pi / 2.5 <= r <= pi / 2.5
    ensures -pi / 2.5 <= pitch <= pi / 2.5 ==> r == pitch
    ensures pitch > pi / 2.5 ==> r == pi / 2.5
    ensures pitch < -pi / 2.5 ==> r == -pi / 2.5
  {
    Clamp(-pi / 2.5, pi / 2.5, pitch)
  }

  /** One frame of easing: the gap to the target shrinks by exactly a
      factor 0.95. */
  function Smooth(current: real, target: real): (r: real)
    ensures target - r == 0.95 * (target - current)
  {
    current + (target - current) * Smoothing
  }

  /** One frame never overshoots: the new value lies between the old value
      and the target, and its distance to the target is 0.95 of the old one. */
  lemma SmoothBetween(current: real, target: real)
    ensures Min(current, target) <= Smooth(current, target) <= Max(current, target)
    ensures Abs(target - Smooth(current, target)) == 0.95 * Abs(target - current)
  {
  }

  /** The value after `n` frames toward a fixed target. */
  function Approach(current: real, target: real, n: nat): real
    decreases n
  {
    if n == 0 then current else Approach(Smooth(current, target), target, n - 1)
  }

  function Pow(x: real, n: nat): real
    decreases n
  {
    if n == 0 then 1.0 else x * Pow(x, n - 1)
  }

  lemma {:induction false} PowBounds(n: nat)
    ensures 0.0 < Pow(0.95, n) <= 1.0
    decreases n
  {
    if n > 0 {
      PowBounds(n - 1);
    }
  }

  /** After `n` frames the gap to the target is 0.95^n of the initial gap. */
  lemma {:induction false} ApproachGap(current: real, target: real, n: nat)
    ensures target - Approach(current, target, n) == Pow(0.95, n) * (target - current)
    decreases n
  {
    if n > 0 {
      var s := Smooth(current, target);
      var p := Pow(0.95, n - 1);
      var a := Approach(s, target, n - 1);
      ApproachGap(s, target, n - 1);
      GapStep(p, target - s, target - current, target - a);
    }
  }

  lemma GapStep(p: real, gs: real, g: real, x: real)
    requires x == p * gs && gs == 0.95 * g
    ensures x == (0.95 * p) * g
  {
  }

  /** Easing toward a fixed target never overshoots and never moves away:
      every frame stays between the start and the target, and the gap is
      non-increasing from frame to frame. */
  lemma ApproachMonotone(current: real, target: real, n: nat)
    ensures Min(current, target) <= Approach(current, target, n) <= Max(current, target)
    ensures Abs(target - Approach(current, target, n + 1)) <= Abs(target - Approach(current, target, n))
  {
    ApproachGap(current, target, n);
    ApproachGap(current, target, n + 1);
    PowBounds(n);
    var p := Pow(0.95, n);
    assert Pow(0.95, n + 1) == 0.95 * p;
    ScaledGap(current, target, p, Approach(current, target, n));
    ScaledGap(current, target, 0.95 * p, Approach(current, target, n + 1));
  }

  lemma ScaledGap(current: real, target: real, p: real, a: real)
    requires 0.0 <= p <= 1.0 && target - a == p * (target - current)
    ensures Min(current, target) <= a <= Max(current, target)
    ensures Abs(target - a) == p * Abs(target - current)
  {
    var d := target - current;
    assert (1.0 - p) * d == d - p * d;
    if d >= 0.0 {
      MulNonNeg(1.0 - p, d);
      MulNonNeg(p, d);
    } else {
      MulNonNeg(1.0 - p, -d);
      MulNonNeg(p, -d);
    }
  }

  lemma {:induction false} Bernoulli(n: nat)
    ensures Pow(0.95, n) * (1.0 + 0.05 * (n as real)) <= 1.0
    decreases n
  {
    if n > 0 {
      Bernoulli(n - 1);
      PowBounds(n - 1);
      var p := Pow(0.95, n - 1);
      var m := 1.0 + 0.05 * ((n - 1) as real);
      assert p * m <= 1.0;
      calc {
        Pow(0.95, n) * (1.0 + 0.05 * (n as real));
        (0.95 * p) * (m + 0.05);
        0.95 * (p * m) + 0.0475 * p;
      <= 0.95 + 0.0475 * p;
      <= 0.95 + 0.0475;
      <= 1.0;
      }
    }
  }

  lemma MulNonNeg(a: real, b: real)
    requires a >= 0.0 && b >= 0.0
    ensures a * b >= 0.0
  {
  }

  lemma MulStrict(a: real, b: real, c: real)
    requires a < b && c > 0.0
    ensures a * c < b * c
  {
  }

  /** A number of frames after which the gap is below `eps`. */
  function FramesWithin(current: real, target: real, eps: real): (n: nat)
    requires eps > 0.0
    ensures (n as real) > 20.0 * (Abs(target - current) / eps)
  {
    var q := 20.0 * (Abs(target - current) / eps);
    assert q >= 0.0;
    q.Floor + 1
  }

  /** Convergence: from `FramesWithin` frames on, the current value is
      within `eps` of the target. */
  lemma Converges(current: real, target: real, eps: real, n: nat)
    requires eps > 0.0 && n >= FramesWithin(current, target, eps)
    ensures Abs(target - Approach(current, target, n)) < eps
  {
    ApproachAbsGap(current, target, n);
    PowSmall(n, Abs(target - current), eps);
  }

  lemma ApproachAbsGap(current: real, target: real, n: nat)
    ensures Abs(target - Approach(current, target, n)) == Pow(0.95, n) * Abs(target - current)
  {
    ApproachGap(current, target, n);
    PowBounds(n);
    ScaledGap(current, target, Pow(0.95, n), Approach(current, target, n));
  }

  lemma PowSmall(n: nat, d: real, eps: real)
    requires eps > 0.0 && d >= 0.0 && (n as real) > 20.0 * (d / eps)
    ensures Pow(0.95, n) * d < eps
  {
    Bernoulli(n);
    PowBounds(n);
    ConvergeArith(Pow(0.95, n), d, eps, n as real);
  }

  lemma ConvergeArith(p: real, d: real, eps: real, x: real)
    requires p > 0.0 && eps > 0.0 && d >= 0.0
    requires p * (1.0 + 0.05 * x) <= 1.0 && x > 20.0 * (d / eps)
    ensures p * d < eps
  {
    var m := 1.0 + 0.05 * x;
    var q := d / eps;
    assert q < m;
    assert d == q * eps;
    MulStrict(q, m, eps);
    GapBound(p, d, eps, m);
  }

  lemma GapBound(p: real, d: real, eps: real, m: real)
    requires p > 0.0 && eps > 0.0 && p * m <= 1.0 && d < m * eps
    ensures p * d < eps
  {
    MulStrict(d, m * eps, p);
    assert (m * eps) * p == eps * (p * m);
    assert eps * (p * m) <= eps * 1.0;
  }

  /** The controller state shared by the input handlers and the frame loop. */
  class OrbitController {
    const pi: real
    var targetRotationX: real
    var targetRotationY: real
    var currentRotationX: real
    var currentRotationY: real
    var autoRotate: bool
    var isMouseDown: bool
    var mouseX: real
    var mouseY: real
    var touchStartX: real
    var touchStartY: real
    var isInView: bool

    /** Target and current pitch never leave the widest bound any handler
        applies, pi/2.5. */
    ghost predicate Valid()
      reads this
    {
      && pi > 0.0
      && -pi / 2.5 <= targetRotationX <= pi / 2.5
      && -pi / 2.5 <= currentRotationX <= pi / 2.5
    }

    constructor (pi: real)
      requires pi > 0.0
      ensures Valid() && this.pi == pi
      ensures targetRotationX == 0.0 && targetRotationY == 0.0
      ensures currentRotationX == 0.0 && currentRotationY == 0.0
      ensures autoRotate && !isMouseDown && !isInView
      ensures mouseX == 0.0 && mouseY == 0.0 && touchStartX == 0.0 && touchStartY == 0.0
    {
      this.pi := pi;
      targetRotationX, targetRotationY := 0.0, 0.0;
      currentRotationX, currentRotationY := 0.0, 0.0;
      autoRotate := true;
      isMouseDown := false;
      mouseX, mouseY := 0.0, 0.0;
      touchStartX, touchStartY := 0.0, 0.0;
      isInView := false;
    }

    method MouseMove(clientX: real, clientY: real)
      requires Valid()
      modifies this
      ensures Valid()
      ensures old(isMouseDown) ==> targetRotationY == old(targetRotationY) + (clientX - old(mouseX)) * MouseYawGain
      ensures old(isMouseDown) ==> targetRotationX == DragPitch(pi, old(targetRotationX), clientY - old(mouseY), MousePitchGain)
      ensures old(isMouseDown) ==> -pi / 3.0 <= targetRotationX <= pi / 3.0
      ensures !old(isMouseDown) ==> targetRotationX == old(targetRotationX) && targetRotationY == old(targetRotationY)
      ensures mouseX == clientX && mouseY == clientY
      ensures currentRotationX == old(currentRotationX) && currentRotationY == old(currentRotationY)
      ensures autoRotate == old(autoRotate) && isMouseDown == old(isMouseDown) && isInView == old(isInView)
      ensures touchStartX == old(touchStartX) && touchStartY == old(touchStartY)
    {
      if isMouseDown {
        var deltaX := clientX - mouseX;
        var deltaY := clientY - mouseY;
        targetRotationY := targetRotationY + deltaX * MouseYawGain;
        targetRotationX := targetRotationX + deltaY * MousePitchGain;
        targetRotationX := Max(-pi / 3.0, Min(pi / 3.0, targetRotationX));
      }
      mouseX := clientX;
      mouseY := clientY;
    }

    method MouseDown()
      requires Valid()
      modifies this
      ensures Valid()
      ensures isMouseDown && !autoRotate
      ensures targetRotationX == old(targetRotationX) && targetRotationY == old(targetRotationY)
      ensures currentRotationX == old(currentRotationX) && currentRotationY == old(currentRotationY)
      ensures mouseX == old(mouseX) && mouseY == old(mouseY) && isInView == old(isInView)
      ensures touchStartX == old(touchStartX) && touchStartY == old(touchStartY)
    {
      isMouseDown := true;
      autoRotate := false;
    }

    /** Mouse button released or pointer left the container; auto-rotation
        comes back through `ResumeAutoRotate` two seconds later. */
    method MouseUp()
      requires Valid()
      modifies this
      ensures Valid()
      ensures !isMouseDown && autoRotate == old(autoRotate)
      ensures targetRotationX == old(targetRotationX) && targetRotationY == old(targetRotationY)
      ensures currentRotationX == old(currentRotationX) && currentRotationY == old(currentRotationY)
      ensures mouseX == old(mouseX) && mouseY == old(mouseY) && isInView == old(isInView)
      ensures touchStartX == old(touchStartX) && touchStartY == old(touchStartY)
    {
      isMouseDown := false;
    }

    /** Only single-finger touches start a drag. */
    method TouchStart(touches: nat, x: real, y: real)
      requires Valid()
      modifies this
      ensures Valid()
      ensures touches == 1 ==> isMouseDown && !autoRotate && touchStartX == x && touchStartY == y
      ensures touches != 1 ==> isMouseDown == old(isMouseDown) && autoRotate == old(autoRotate)
      ensures touches != 1 ==> touchStartX == old(touchStartX) && touchStartY == old(touchStartY)
      ensures targetRotationX == old(targetRotationX) && targetRotationY == old(targetRotationY)
      ensures currentRotationX == old(currentRotationX) && currentRotationY == old(currentRotationY)
      ensures mouseX == old(mouseX) && mouseY == old(mouseY) && isInView == old(isInView)
    {
      if touches == 1 {
        isMouseDown := true;
        autoRotate := false;
        touchStartX := x;
        touchStartY := y;
      }
    }

    method TouchMove(touches: nat, x: real, y: real)
      requires Valid()
      modifies this
      ensures Valid()
      ensures var dragging := touches == 1 && old(isMouseDown);
              && (dragging ==> targetRotationY == old(targetRotationY) + (x - old(touchStartX)) * TouchYawGain)
              && (dragging ==> targetRotationX == DragPitch(pi, old(targetRotationX), y - old(touchStartY), TouchPitchGain))
              && (dragging ==> -pi / 3.0 <= targetRotationX <= pi / 3.0)
              && (dragging ==> touchStartX == x && touchStartY == y)
              && (!dragging ==> targetRotationX == old(targetRotationX) && targetRotationY == old(targetRotationY))
              && (!dragging ==> touchStartX == old(touchStartX) && touchStartY == old(touchStartY))
      ensures currentRotationX == old(currentRotationX) && currentRotationY == old(currentRotationY)
      ensures autoRotate == old(autoRotate) && isMouseDown == old(isMouseDown) && isInView == old(isInView)
      ensures mouseX == old(mouseX) && mouseY == old(mouseY)
    {
      if touches == 1 && isMouseDown {
        var deltaX := x - touchStartX;
        var deltaY := y - touchStartY;
        targetRotationY := targetRotationY + deltaX * TouchYawGain;
        targetRotationX := targetRotationX + deltaY * TouchPitchGain;
        targetRotationX := Max(-pi / 3.0, Min(pi / 3.0, targetRotationX));
        touchStartX := x;
        touchStartY := y;
      }
    }

    method TouchEnd()
      requires Valid()
      modifies this
      ensures Valid()
      ensures !isMouseDown && autoRotate == old(autoRotate)
      ensures targetRotationX == old(targetRotationX) && targetRotationY == old(targetRotationY)
      ensures currentRotationX == old(currentRotationX) && currentRotationY == old(currentRotationY)
      ensures mouseX == old(mouseX) && mouseY == old(mouseY) && isInView == old(isInView)
      ensures touchStartX == old(touchStartX) && touchStartY == old(touchStartY)
    {
      isMouseDown := false;
    }

    /** Focus on a project: `facingYaw` and `facingPitch` are the angles that
        turn the project's position toward the camera; the pitch is clamped
        to pi/2.5. Auto-rotation resumes five seconds later. */
    method RotateToProject(facingYaw: real, facingPitch: real)
      requires Valid()
      modifies this
      ensures Valid()
      ensures targetRotationY == facingYaw && targetRotationX == FocusPitch(pi, facingPitch)
      ensures -pi / 2.5 <= targetRotationX <= pi / 2.5
      ensures !autoRotate && isMouseDown == old(isMouseDown)
      ensures currentRotationX == old(currentRotationX) && currentRotationY == old(currentRotationY)
      ensures mouseX == old(mouseX) && mouseY == old(mouseY) && isInView == old(isInView)
      ensures touchStartX == old(touchStartX) && touchStartY == old(touchStartY)
    {
      targetRotationY := facingYaw;
      targetRotationX := facingPitch;
      targetRotationX := Max(-pi / 2.5, Min(pi / 2.5, targetRotationX));
      autoRotate := false;
    }

    /** The delayed callback that turns auto-rotation back on. */
    method ResumeAutoRotate()
      requires Valid()
      modifies this
      ensures Valid()
      ensures autoRotate && isMouseDown == old(isMouseDown)
      ensures targetRotationX == old(targetRotationX) && targetRotationY == old(targetRotationY)
      ensures currentRotationX == old(currentRotationX) && currentRotationY == old(currentRotationY)
      ensures mouseX == old(mouseX) && mouseY == old(mouseY) && isInView == old(isInView)
      ensures touchStartX == old(touchStartX) && touchStartY == old(touchStartY)
    {
      autoRotate := true;
    }

    /** The visibility observer of the container. */
    method SetInView(intersecting: bool)
      requires Valid()
      modifies this
      ensures Valid()
      ensures isInView == intersecting
      ensures autoRotate == old(autoRotate) && isMouseDown == old(isMouseDown)
      ensures targetRotationX == old(targetRotationX) && targetRotationY == old(targetRotationY)
      ensures currentRotationX == old(currentRotationX) && currentRotationY == old(currentRotationY)
      ensures mouseX == old(mouseX) && mouseY == old(mouseY)
      ensures touchStartX == old(touchStartX) && touchStartY == old(touchStartY)
    {
      isInView := intersecting;
    }

    /** The rotation part of one animation frame. Out of view nothing
        changes; in view the target yaw drifts by exactly `AutoRotateSpeed`
        (no wrap-around) if auto-rotation is on, and both current angles
        ease toward their targets. */
    method Animate()
      requires Valid()
      modifies this
      ensures Valid()
      ensures !isInView ==> targetRotationY == old(targetRotationY) && currentRotationX == old(currentRotationX)
                            && currentRotationY == old(currentRotationY)
      ensures isInView ==> targetRotationY == old(targetRotationY) + (if autoRotate then AutoRotateSpeed else 0.0)
      ensures isInView ==> currentRotationX == Smooth(old(currentRotationX), targetRotationX)
      ensures isInView ==> currentRotationY == Smooth(old(currentRotationY), targetRotationY)
      ensures targetRotationX == old(targetRotationX)
      ensures autoRotate == old(autoRotate) && isMouseDown == old(isMouseDown) && isInView == old(isInView)
      ensures mouseX == old(mouseX) && mouseY == old(mouseY)
      ensures touchStartX == old(touchStartX) && touchStartY == old(touchStartY)
    {
      if !isInView {
        return;
      }
      if autoRotate {
        targetRotationY := targetRotationY + AutoRotateSpeed;
      }
      SmoothBetween(currentRotationX, targetRotationX);
      currentRotationX := currentRotationX + (targetRotationX - currentRotationX) * Smoothing;
      currentRotationY := currentRotationY + (targetRotationY - currentRotationY) * Smoothing;
    }
  }
}
