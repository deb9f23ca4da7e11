/** Page-absolute anchor coordinates next to an element. The element's
    client rectangle and the window's scroll offsets, which the source reads
    from the DOM at call time, are parameters here. */
module Positioning {
  import opened Wrappers

  /** What `getBoundingClientRect()` reports, in viewport pixels. */
  datatype ClientRect = ClientRect(top: real, left: real, right: real, bottom: real, width: real, height: real)

  datatype AbsolutePosition = AbsolutePosition(top: real, left: real)

  datatype Scroll = Scroll(x: real, y: real)

  /** The companion's default reference (icon) size and gap, in pixels. */
  const DefaultReferenceSize: real := 28.0
  const DefaultMargin: real := 8.0

  /** The window's scroll offsets; without a window (server rendering) both are 0. */
  function ScrollOffsets(window: Option<Scroll>): (sc: Scroll)
    ensures window.None? ==> sc == Scroll(0.0, 0.0)
    ensures window.Some? ==> sc == window.value
  {
    window.GetOr(Scroll(0.0, 0.0))
  }

  /** The top-left corner of the element in page coordinates, shifted by the offsets (default 0). */
  function AnchorTopLeftOf(r: ClientRect, window: Option<Scroll>, offsetX: Option<real>, offsetY: Option<real>): (p: AbsolutePosition)
    ensures p.top - offsetY.GetOr(0.0) == r.top + ScrollOffsets(window).y
    ensures p.left - offsetX.GetOr(0.0) == r.left + ScrollOffsets(window).x
  {
    var sc := ScrollOffsets(window);
    AbsolutePosition(r.top + sc.y + offsetY.GetOr(0.0), r.left + sc.x + offsetX.GetOr(0.0))
  }

  /** The top-right corner of the element in page coordinates, shifted by the offsets (default 0). */
  function AnchorTopRightOf(r: ClientRect, window: Option<Scroll>, offsetX: Option<real>, offsetY: Option<real>): (p: AbsolutePosition)
    ensures p.top == AnchorTopLeftOf(r, window, offsetX, offsetY).top
    ensures p.left - AnchorTopLeftOf(r, window, offsetX, offsetY).left == r.right - r.left
  {
    var sc := ScrollOffsets(window);
    AbsolutePosition(r.top + sc.y + offsetY.GetOr(0.0), r.right + sc.x + offsetX.GetOr(0.0))
  }

  /** `Math.max(1, Math.floor(referenceSizePx ?? 28))`: a whole number of
      pixels, at least 1, never above a requested size of at least 1. */
  function ReferenceSize(requested: Option<real>): (z: int)
    ensures z >= 1
    ensures requested.None? ==> z == 28
    ensures requested.Some? && requested.value >= 1.0 ==>
      z as real <= requested.value < z as real + 1.0
    ensures requested.Some? && requested.value < 1.0 ==> z == 1
  {
    var f := requested.GetOr(DefaultReferenceSize).Floor;
    if f < 1 then 1 else f
  }

  /** The offset that centres an icon of `ref` pixels on an element `height`
      pixels tall, or 0 when the element is not taller than the icon. */
  function CentringOffset(height: real, ref: int): (d: real)
    ensures d >= 0.0
    ensures height <= ref as real ==> d == 0.0
    ensures height >= ref as real ==> d + ref as real / 2.0 == height / 2.0
  {
    var half := (height - ref as real) / 2.0;
    if half < 0.0 then 0.0 else half
  }

  /** The companion placed `margin` (default 8) pixels to the right of the
      element, vertically centred on it when the element is taller than the
      reference size, otherwise top-aligned. */
  function PositionRightOf(r: ClientRect, window: Option<Scroll>, margin: Option<real>, referenceSize: Option<real>): (p: AbsolutePosition)
    ensures p.top >= r.top + ScrollOffsets(window).y
    ensures r.height <= ReferenceSize(referenceSize) as real ==> p.top == r.top + ScrollOffsets(window).y
    ensures r.height >= ReferenceSize(referenceSize) as real ==>
      p.top + ReferenceSize(referenceSize) as real / 2.0 == r.top + ScrollOffsets(window).y + r.height / 2.0
    ensures p.left - margin.GetOr(DefaultMargin) == r.right + ScrollOffsets(window).x
  {
    var sc := ScrollOffsets(window);
    var ref := ReferenceSize(referenceSize);
    AbsolutePosition(r.top + sc.y + CentringOffset(r.height, ref), r.right + sc.x + margin.GetOr(DefaultMargin))
  }

  /** The companion placed so that its right edge (one reference size wide)
      sits `margin` (default 8) pixels left of the element, vertically placed
      as in `PositionRightOf`. */
  function PositionLeftOf(r: ClientRect, window: Option<Scroll>, margin: Option<real>, referenceSize: Option<real>): (p: AbsolutePosition)
    ensures p.top == PositionRightOf(r, window, margin, referenceSize).top
    ensures p.left + ReferenceSize(referenceSize) as real + margin.GetOr(DefaultMargin) == r.left + ScrollOffsets(window).x
  {
    var sc := ScrollOffsets(window);
    var ref := ReferenceSize(referenceSize);
    AbsolutePosition(r.top + sc.y + CentringOffset(r.height, ref), r.left + sc.x - ref as real - margin.GetOr(DefaultMargin))
  }

  /** Page coordinates are viewport coordinates plus the scroll offsets: with
      a window scrolled by `sc`, every anchor is its no-window value moved by `sc`. */
  lemma AnchorsFollowScroll(r: ClientRect, sc: Scroll, offsetX: Option<real>, offsetY: Option<real>,
                            margin: Option<real>, referenceSize: Option<real>)
    ensures AnchorTopLeftOf(r, Some(sc), offsetX, offsetY)
         == AbsolutePosition(AnchorTopLeftOf(r, None, offsetX, offsetY).top + sc.y,
                             AnchorTopLeftOf(r, None, offsetX, offsetY).left + sc.x)
    ensures AnchorTopRightOf(r, Some(sc), offsetX, offsetY)
         == AbsolutePosition(AnchorTopRightOf(r, None, offsetX, offsetY).top + sc.y,
                             AnchorTopRightOf(r, None, offsetX, offsetY).left + sc.x)
    ensures PositionRightOf(r, Some(sc), margin, referenceSize)
         == AbsolutePosition(PositionRightOf(r, None, margin, referenceSize).top + sc.y,
                             PositionRightOf(r, None, margin, referenceSize).left + sc.x)
    ensures PositionLeftOf(r, Some(sc), margin, referenceSize)
         == AbsolutePosition(PositionLeftOf(r, None, margin, referenceSize).top + sc.y,
                             PositionLeftOf(r, None, margin, referenceSize).left + sc.x)
  {
  }
}
