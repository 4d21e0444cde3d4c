/**
 * Values the preview derives on every render from its current state:
 * the artwork's on-screen size (centimetres scaled by container width
 * over the reference wall width), the offset of its cast shadow, which
 * side panels of the frame are visible at oblique angles, and which
 * colour adjustments the lighting filter applies.
 */
module Render {

  import opened Optional
  import opened WallSizes
  import Anchor
  import Lighting

  /** On-screen pixels per real centimetre for a container this wide. */
  function PixelsPerCm(containerWidth: nat): (ppc: real)
    ensures ppc >= 0.0
    ensures ppc * ReferenceWallWidthCm as real == containerWidth as real
    ensures containerWidth > 0 ==> ppc > 0.0
  {
    containerWidth as real / ReferenceWallWidthCm as real
  }

  datatype Extent = Extent(width: real, height: real)

  /**
   * On-screen size of the artwork. The artwork covers the same fraction
   * of the container as its real size covers of the 350 cm reference
   * wall, so its aspect ratio is the category's and it stays portrait.
   * Before layout (zero width) it has no extent, and nothing divides by
   * the container width.
   */
  function PaintingSize(size: WallArtSize, containerWidth: nat): (e: Extent)
    ensures e.width * ReferenceWallWidthCm as real == Dimensions(size).width as real * containerWidth as real
    ensures e.height * ReferenceWallWidthCm as real == Dimensions(size).height as real * containerWidth as real
    ensures e.width * Dimensions(size).height as real == e.height * Dimensions(size).width as real
    ensures containerWidth > 0 ==> 0.0 < e.width < e.height
    ensures containerWidth == 0 ==> e == Extent(0.0, 0.0)
  {
    var ppc := PixelsPerCm(containerWidth);
    var d := Dimensions(size);
    Extent(d.width as real * ppc, d.height as real * ppc)
  }

  /** Category m (50 x 70 cm) on a 700 px container: 2 px per cm, so 100 x 140 px. */
  lemma MediumOnSevenHundredPixels()
    ensures PixelsPerCm(700) == 2.0
    ensures PaintingSize(M, 700) == Extent(100.0, 140.0)
  {
  }

  /** A larger category is drawn strictly larger in both directions. */
  lemma PaintingSizeMonotone(a: WallArtSize, b: WallArtSize, containerWidth: nat)
    requires Rank(a) < Rank(b) && containerWidth > 0
    ensures PaintingSize(a, containerWidth).width < PaintingSize(b, containerWidth).width
    ensures PaintingSize(a, containerWidth).height < PaintingSize(b, containerWidth).height
  {
    DimensionsIncrease(a, b);
    var ppc := PixelsPerCm(containerWidth);
    assert Dimensions(a).width as real * ppc < Dimensions(b).width as real * ppc;
    assert Dimensions(a).height as real * ppc < Dimensions(b).height as real * ppc;
  }

  datatype Offset = Offset(dx: real, dy: real)

  /**
   * Shadow offset: it leans sideways with the anchor's distance from the
   * centre and with the wall angle, and drops further the lower the
   * artwork hangs, but never less than 5 px. For an anchor in [10, 90]
   * and an angle in [-30, 30] it stays within 19 px sideways and 9 px
   * down.
   */
  function ShadowOffset(pos: Anchor.Position, wallAngle: int): (o: Offset)
    ensures o.dy >= 5.0
    ensures o.dy == 5.0 <==> pos.y * 3.0 <= 190.0
    ensures Anchor.InBounds(pos) && -30 <= wallAngle <= 30 ==> -19.0 <= o.dx <= 19.0 && o.dy <= 9.0
    ensures pos.x == 50.0 && wallAngle == 0 ==> o.dx == 0.0
  {
    var dy := (pos.y - 30.0) * 0.15;
    Offset((pos.x - 50.0) * 0.1 + wallAngle as real * 0.5, if dy > 5.0 then dy else 5.0)
  }

  /** Which side panels of the frame are drawn, and how wide. */
  datatype SideEdges = SideEdges(left: bool, right: bool, top: bool, bottom: bool, width: real)

  /**
   * A side panel appears only beyond 3 degrees: the left one for
   * positive angles, the right one for negative angles, never both. Top and
   * bottom flags follow the same rule for the tilt; the component computes
   * them but never draws a top or bottom panel.
   */
  function VisibleEdges(wallAngle: int, verticalTilt: int): (e: SideEdges)
    ensures !(e.left && e.right) && !(e.top && e.bottom)
    ensures (e.left || e.right) <==> (wallAngle > 3 || wallAngle < -3)
    ensures e.left ==> wallAngle > 0
    ensures e.right ==> wallAngle < 0
    ensures (e.top || e.bottom) <==> (verticalTilt > 3 || verticalTilt < -3)
    ensures e.top ==> verticalTilt < 0
    ensures e.bottom ==> verticalTilt > 0
    ensures (e.left || e.right) ==> e.width > 0.9
  {
    var abs := if wallAngle < 0 then -wallAngle else wallAngle;
    SideEdges(wallAngle > 3, wallAngle < -3, verticalTilt < -3, verticalTilt > 3, abs as real * 0.3)
  }

  /** Threshold on |temperature| beyond which the tint shifts colour. */
  const TintThreshold: real := 0.05

  /** The lighting filter: a brightness factor, optionally a sepia amount and a hue rotation in degrees. */
  datatype Filter = Filter(brightness: real, sepia: Option<real>, hueRotate: Option<int>)

  function Abs(v: real): real {
    if v < 0.0 then -v else v
  }

  /**
   * Brightness always applies. A colour shift applies only when the
   * temperature is beyond 0.05 either way: then a faint sepia (at most
   * 0.03 for an in-range tint) and a hue rotation of -5 degrees for a
   * warm wall or +5 degrees for a cool one.
   */
  function LightingFilter(t: Lighting.Tint): (f: Filter)
    ensures f.brightness == t.brightness
    ensures f.sepia.Some? <==> Abs(t.temperature) > TintThreshold
    ensures f.hueRotate.Some? <==> f.sepia.Some?
    ensures f.hueRotate == Some(-5) <==> t.temperature > TintThreshold
    ensures f.hueRotate == Some(5) <==> t.temperature < -TintThreshold
    ensures Lighting.TintInRange(t) && f.sepia.Some? ==> 0.01 < f.sepia.value <= 0.03
  {
    var magnitude := Abs(t.temperature);
    Filter(t.brightness,
           if magnitude > TintThreshold then Some(magnitude * 0.2) else None,
           if t.temperature > TintThreshold then Some(-5)
           else if t.temperature < -TintThreshold then Some(5)
           else None)
  }

  /** Everything a render depends on. */
  datatype ViewState = ViewState(
    position: Anchor.Position,
    wallAngle: int,
    verticalTilt: int,
    tint: Lighting.Tint,
    size: WallArtSize,
    hasFrame: bool,
    containerWidth: nat)

  /** The render model: the artwork layer and the layers attached to it. */
  datatype Layers = Layers(
    anchor: Anchor.Position,
    painting: Extent,
    rotateY: int,
    rotateX: int,
    shadow: Offset,
    edges: SideEdges,
    filter: Filter,
    framed: bool)

  function RenderLayers(v: ViewState): Layers {
    Layers(v.position, PaintingSize(v.size, v.containerWidth), v.wallAngle, v.verticalTilt,
           ShadowOffset(v.position, v.wallAngle), VisibleEdges(v.wallAngle, v.verticalTilt),
           LightingFilter(v.tint), v.hasFrame)
  }

  /** The artwork's size depends on the category and container width only, never on angle or tilt. */
  lemma SizeIgnoresPerspective(v: ViewState, wallAngle: int, verticalTilt: int)
    ensures RenderLayers(v.(wallAngle := wallAngle, verticalTilt := verticalTilt)).painting == RenderLayers(v).painting
  {
  }
}
