/** Viewport breakpoints of the sphere view: the camera distance and field of
    view chosen at start-up and on every resize, and the pixel offset of the
    project cards. Widths and heights are the window's inner size in CSS
    pixels. */
module Viewport {

  datatype CameraPreset = CameraPreset(distance: real, fov: int)
  datatype CardOffset = CardOffset(x: int, y: int)

  const SmallMobileCamera := CameraPreset(8.0, 65)
  const MobileCamera := CameraPreset(7.5, 62)
  const LandscapeCamera := CameraPreset(7.0, 55)
  const DesktopCamera := CameraPreset(6.0, 60)

  const SmallMobileOffset := CardOffset(60, 50)
  const MobileOffset := CardOffset(70, 55)
  const DesktopOffset := CardOffset(90, 70)

  predicate IsMobile(width: int) { width <= 768 }
  predicate IsSmallMobile(width: int) { width <= 480 }
  predicate IsLandscape(width: int, height: int) { height < 500 && width > height }

  /** The camera preset; start-up and resize use the same selection. The
      landscape preset needs only a low window: every window wider than 768
      and lower than 500 is wider than it is high. */
  function CameraPresetFor(width: int, height: int): (p: CameraPreset)
    ensures p == SmallMobileCamera <==> width <= 480
    ensures p == MobileCamera <==> 480 < width <= 768
    ensures p == LandscapeCamera <==> width > 768 && height < 500
    ensures p == DesktopCamera <==> width > 768 && height >= 500
  {
    if IsSmallMobile(width) then SmallMobileCamera
    else if IsMobile(width) then MobileCamera
    else if IsLandscape(width, height) then LandscapeCamera
    else DesktopCamera
  }

  /** The offset subtracted from a card's projected position. */
  function CardOffsetFor(width: int): (o: CardOffset)
    ensures o == SmallMobileOffset <==> width <= 480
    ensures o == MobileOffset <==> 480 < width <= 768
    ensures o == DesktopOffset <==> width > 768
  {
    if IsSmallMobile(width) then SmallMobileOffset
    else if IsMobile(width) then MobileOffset
    else DesktopOffset
  }

  /** The card offsets follow the same two width tests as the camera: the
      small-mobile and mobile tiers coincide, and every wider window (either
      landscape or desktop camera) gets the desktop offset. */
  lemma TiersAgree(width: int, height: int)
    ensures CardOffsetFor(width) == SmallMobileOffset <==> CameraPresetFor(width, height) == SmallMobileCamera
    ensures CardOffsetFor(width) == MobileOffset <==> CameraPresetFor(width, height) == MobileCamera
    ensures CardOffsetFor(width) == DesktopOffset <==>
            CameraPresetFor(width, height) in {LandscapeCamera, DesktopCamera}
  {
  }

  /** For a fixed height, a wider window never moves the camera farther away. */
  lemma DistanceNonIncreasing(w1: int, w2: int, height: int)
    requires w1 <= w2
    ensures CameraPresetFor(w2, height).distance <= CameraPresetFor(w1, height).distance
  {
  }

  /** Resizing a 1024-pixel-wide window to 400 pixels switches to the
      small-mobile camera and card offset. */
  lemma ResizeToPhone(height: int)
    requires height >= 500
    ensures CameraPresetFor(1024, height) == DesktopCamera && CardOffsetFor(1024) == DesktopOffset
    ensures CameraPresetFor(400, height) == SmallMobileCamera && CardOffsetFor(400) == SmallMobileOffset
  {
  }
}
