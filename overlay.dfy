/** The overlay projector of the project sphere: for each project card, the
    values written to its element every frame, computed from the depth `z`
    of its rotated position (positive toward the viewer), its projected
    device coordinates, the attach radius and the camera distance. */
module Overlay {
  import opened MathOps
  import Viewport

  /** Depth at which a card starts to fade in. */
  const ZThreshold := 0.3
  /** Depth over which the fade-in ramps from 0 to 1. */
  const RampDepth := 1.5
  const MinScale := 0.4
  /** Opacity above which a card is shown. */
  const ShownOpacity := 0.05
  /** Opacity above which the card's indicator item is active. */
  const ActiveOpacity := 0.5

  /** The fade-in ramp on depth. */
  function Opacity(z: real): (o: real)
    ensures 0.0 <= o <= 1.0
    ensures z <= ZThreshold ==> o == 0.0
    ensures z >= ZThreshold + RampDepth ==> o == 1.0
    ensures ZThreshold < z < ZThreshold + RampDepth ==> o == (z - ZThreshold) / RampDepth
  {
    if z > ZThreshold then Max(0.0, Min(1.0, (z - ZThreshold) / RampDepth)) else 0.0
  }

  /** A card nearer the viewer is never more transparent. */
  lemma OpacityMonotone(z1: real, z2: real)
    requires z1 <= z2
    ensures Opacity(z1) <= Opacity(z2)
  {
  }

  /** A card is shown exactly when its depth exceeds 0.375. */
  lemma ShownIff(z: real)
    ensures Opacity(z) > ShownOpacity <==> z > 0.375
  {
  }

  /** The indicator item is active exactly when the depth exceeds 1.05. */
  lemma ActiveIff(z: real)
    ensures Opacity(z) > ActiveOpacity <==> z > 1.05
  {
  }

  /** The card's scale: larger for nearer cards and for a nearer camera,
      never below `MinScale`. */
  function Scale(z: real, radius: real, cameraZ: real): (s: real)
    requires radius > 0.0 && cameraZ > 0.0
    ensures s >= MinScale
  {
    var zoomFactor := 6.0 / cameraZ;
    var depthScale := 0.6 + (z / radius) * 0.4;
    Max(MinScale, depthScale * zoomFactor)
  }

  lemma DivMonotone(a: real, b: real, c: real)
    requires a <= b && c > 0.0
    ensures a / c <= b / c
  {
    assert b / c - a / c == (b - a) / c;
  }

  lemma MulMonotone(a: real, b: real, c: real)
    requires a <= b && c > 0.0
    ensures a * c <= b * c
  {
    assert b * c - a * c == (b - a) * c;
  }

  /** Nearer cards are drawn at least as large. */
  lemma ScaleMonotone(z1: real, z2: real, radius: real, cameraZ: real)
    requires z1 <= z2 && radius > 0.0 && cameraZ > 0.0
    ensures Scale(z1, radius, cameraZ) <= Scale(z2, radius, cameraZ)
  {
    DivMonotone(z1, z2, radius);
    assert 6.0 / cameraZ > 0.0;
    MulMonotone(0.6 + (z1 / radius) * 0.4, 0.6 + (z2 / radius) * 0.4, 6.0 / cameraZ);
  }

  /** At the desktop camera distance a card at the front of the sphere has
      its natural size, and no card on the sphere is larger. */
  lemma ScaleAtDesktop(z: real, radius: real)
    requires radius > 0.0 && -radius <= z <= radius
    ensures Scale(radius, radius, 6.0) == 1.0
    ensures Scale(z, radius, 6.0) <= 1.0
  {
    assert radius / radius == 1.0;
    DivMonotone(z, radius, radius);
  }

  lemma DivAntitone(a: real, c1: real, c2: real)
    requires a >= 0.0 && 0.0 < c1 <= c2
    ensures a / c2 <= a / c1
  {
    assert a / c1 - a / c2 == a * (c2 - c1) / (c1 * c2);
    assert c1 * c2 > 0.0;
    assert a * (c2 - c1) >= 0.0;
  }

  /** Moving the camera away never enlarges a card on the sphere: the zoom
      factor is divided by the camera distance. */
  lemma ScaleZoom(z: real, radius: real, c1: real, c2: real)
    requires radius > 0.0 && -radius <= z && 0.0 < c1 <= c2
    ensures Scale(z, radius, c2) <= Scale(z, radius, c1)
  {
    var d := 0.6 + (z / radius) * 0.4;
    DivMonotone(-radius, z, radius);
    assert -radius / radius == -1.0;
    assert d >= 0.2;
    DivAntitone(6.0, c1, c2);
    MulMonotone(6.0 / c2, 6.0 / c1, d);
    assert d * (6.0 / c2) == (6.0 / c2) * d;
    assert d * (6.0 / c1) == (6.0 / c1) * d;
  }

  /** A card at the front of the sphere is scaled by the zoom factor alone,
      `6 / cameraZ`, floored at `MinScale`. */
  lemma ScaleFront(radius: real, cameraZ: real)
    requires radius > 0.0 && cameraZ > 0.0
    ensures Scale(radius, radius, cameraZ) == Max(MinScale, 6.0 / cameraZ)
  {
    assert radius / radius == 1.0;
  }

  /** The stacking order of a card: the integer part of `(z + 5) * 20`,
      rounded down. */
  function ZIndex(z: real): (k: int)
    ensures (k as real) <= (z + 5.0) * 20.0 < (k as real) + 1.0
  {
    ((z + 5.0) * 20.0).Floor
  }

  /** Nearer cards stack at least as high, and strictly higher once the
      depths differ by a twentieth. */
  lemma ZIndexMonotone(z1: real, z2: real)
    requires z1 <= z2
    ensures ZIndex(z1) <= ZIndex(z2)
    ensures z1 + 0.05 <= z2 ==> ZIndex(z1) < ZIndex(z2)
  {
    var a := (z1 + 5.0) * 20.0;
    var b := (z2 + 5.0) * 20.0;
    assert a <= b;
    if z1 + 0.05 <= z2 {
      assert a + 1.0 <= b;
      assert (a.Floor + 1) as real <= b;
    }
  }

  lemma UnitScale(f: real, w: real)
    requires 0.0 <= f <= 1.0 && w >= 0.0
    ensures 0.0 <= f * w <= w
    ensures f == 0.0 ==> f * w == 0.0
    ensures f == 1.0 ==> f * w == w
  {
    assert w - f * w == (1.0 - f) * w;
  }

  /** Device x in [-1, 1] to a pixel column of the container: the left edge,
      the centre and the right edge map to 0, half the width and the width. */
  function ScreenX(ndcX: real, width: real): (x: real)
    ensures ndcX == -1.0 ==> x == 0.0
    ensures ndcX == 0.0 ==> x == width / 2.0
    ensures ndcX == 1.0 ==> x == width
  {
    (ndcX * 0.5 + 0.5) * width
  }

  /** Device y in [-1, 1] to a pixel row; screen rows grow downward, so the
      top edge maps to 0 and the bottom edge to the height. */
  function ScreenY(ndcY: real, height: real): (y: real)
    ensures ndcY == 1.0 ==> y == 0.0
    ensures ndcY == 0.0 ==> y == height / 2.0
    ensures ndcY == -1.0 ==> y == height
  {
    (-ndcY * 0.5 + 0.5) * height
  }

  /** Device coordinates in [-1, 1] land inside the container rectangle,
      the edges map to its edges and the y axis is flipped. */
  lemma ScreenInRect(ndcX: real, ndcY: real, width: real, height: real)
    requires width >= 0.0 && height >= 0.0
    ensures -1.0 <= ndcX <= 1.0 ==> 0.0 <= ScreenX(ndcX, width) <= width
    ensures -1.0 <= ndcY <= 1.0 ==> 0.0 <= ScreenY(ndcY, height) <= height
    ensures ScreenX(-1.0, width) == 0.0 && ScreenX(1.0, width) == width
    ensures ScreenY(1.0, height) == 0.0 && ScreenY(-1.0, height) == height
  {
    if -1.0 <= ndcX <= 1.0 {
      ColumnInRect(ndcX, width);
    }
    if -1.0 <= ndcY <= 1.0 {
      RowInRect(ndcY, height);
    }
  }

  lemma ColumnInRect(ndcX: real, width: real)
    requires width >= 0.0 && -1.0 <= ndcX <= 1.0
    ensures 0.0 <= ScreenX(ndcX, width) <= width
  {
    var f := ndcX * 0.5 + 0.5;
    assert ScreenX(ndcX, width) == f * width;
    UnitScale(f, width);
  }

  lemma RowInRect(ndcY: real, height: real)
    requires height >= 0.0 && -1.0 <= ndcY <= 1.0
    ensures 0.0 <= ScreenY(ndcY, height) <= height
  {
    var f := -ndcY * 0.5 + 0.5;
    assert 0.0 <= f <= 1.0;
    assert ScreenY(ndcY, height) == f * height;
    UnitScale(f, height);
  }

  /** What one frame writes for one card and its indicator item. */
  datatype CardStyle = CardStyle(
    left: real, top: real,
    opacity: real, scale: real, zIndex: int,
    visible: bool, indicatorActive: bool)

  function CardStyleFor(ndcX: real, ndcY: real, z: real, radius: real, cameraZ: real,
                        rectWidth: real, rectHeight: real, windowWidth: int): (c: CardStyle)
    requires radius > 0.0 && cameraZ > 0.0 && rectWidth >= 0.0 && rectHeight >= 0.0
    ensures c.visible <==> z > 0.375
    ensures c.indicatorActive <==> z > 1.05
    ensures c.indicatorActive ==> c.visible
    ensures z <= ZThreshold ==> c.opacity == 0.0 && !c.visible
    ensures c.opacity == Opacity(z) && c.scale == Scale(z, radius, cameraZ) && c.zIndex == ZIndex(z)
    ensures 0.0 <= c.opacity <= 1.0 && c.scale >= MinScale
    ensures c.left == ScreenX(ndcX, rectWidth) - Viewport.CardOffsetFor(windowWidth).x as real
    ensures c.top == ScreenY(ndcY, rectHeight) - Viewport.CardOffsetFor(windowWidth).y as real
  {
    var opacity := Opacity(z);
    var offset := Viewport.CardOffsetFor(windowWidth);
    ShownIff(z);
    ActiveIff(z);
    CardStyle(
      ScreenX(ndcX, rectWidth) - offset.x as real,
      ScreenY(ndcY, rectHeight) - offset.y as real,
      opacity, Scale(z, radius, cameraZ), ZIndex(z),
      opacity > ShownOpacity, opacity > ActiveOpacity)
  }
}
