/**
 * The wall-preview session: the state the preview component keeps and
 * the actions that change it. Pointer input either repositions the
 * artwork's anchor (dragging) or paints the occlusion mask (mask mode);
 * the mask is a per-pixel stencil over the container, and the overlay
 * shows the wall photo exactly where the mask is painted, so masked wall
 * regions appear in front of the artwork.
 *
 * Pixel grids are indexed [row, column].
 */
module WallPreview {

  import opened Optional
  import opened Pixels
  import Anchor
  import AngleEstimator
  import Lighting

  /** Radius of the mask brush, in container pixels. */
  const BrushRadius: real := 10.0

  /** One overlay pixel: see-through, or a wall pixel drawn over the artwork. */
  datatype Pixel = Transparent | Opaque(colour: Rgb)

  /**
   * Whether the brush disc centred at (x, y) covers the pixel in column
   * `col` of row `row`, judged at the pixel's centre.
   */
  predicate InBrush(col: int, row: int, x: real, y: real) {
    var cx := col as real + 0.5 - x;
    var cy := row as real + 0.5 - y;
    cx * cx + cy * cy <= BrushRadius * BrushRadius
  }

  /**
   * A mask cell after one brush stamp: covered cells become opaque, or
   * transparent with the eraser; uncovered cells keep their value.
   */
  function Stroke(before: bool, covered: bool, erasing: bool): bool {
    if covered then !erasing else before
  }

  /** Stamping the same spot twice with the same tool is the same as stamping once. */
  lemma StrokeIdempotent(before: bool, covered: bool, erasing: bool)
    ensures Stroke(Stroke(before, covered, erasing), covered, erasing) == Stroke(before, covered, erasing)
  {
  }

  /** Painting a stamp and then erasing the same stamp leaves the covered cells transparent and the rest as they were. */
  lemma PaintThenEraseClears(before: bool, covered: bool)
    ensures Stroke(Stroke(before, covered, false), covered, true) == (if covered then false else before)
  {
  }

  /** A stamp only reaches cells whose centre is within 10 px of the pointer on each axis. */
  lemma BrushIsLocal(col: int, row: int, x: real, y: real)
    requires InBrush(col, row, x, y)
    ensures -BrushRadius <= col as real + 0.5 - x <= BrushRadius
    ensures -BrushRadius <= row as real + 0.5 - y <= BrushRadius
  {
    var cx, cy := col as real + 0.5 - x, row as real + 0.5 - y;
    SquareBound(cx, cy);
    SquareBound(cy, cx);
  }

  /** From v*v + w*w <= 10*10 it follows that v lies in [-10, 10]. */
  lemma SquareBound(v: real, w: real)
    requires v * v + w * w <= BrushRadius * BrushRadius
    ensures -BrushRadius <= v <= BrushRadius
  {
    assert w * w >= 0.0;
    if v > BrushRadius || v < -BrushRadius {
      assert false;
    }
  }

  /** Index of the source pixel that an output pixel samples when `n` source pixels are stretched over `m`. */
  function ScaledIndex(i: nat, m: nat, n: nat): (k: nat)
    requires i < m
    ensures n > 0 ==> k < n
  {
    if n > 0 then ScaledIndexInRange(i, m, n); i * n / m else 0
  }

  lemma ScaledIndexInRange(i: nat, m: nat, n: nat)
    requires i < m && n > 0
    ensures i * n / m < n
  {
    assert i * n <= (m - 1) * n by {
      MulMonotone(i, m - 1, n);
    }
    assert i * n < m * n;
    var q := i * n / m;
    assert q * m <= i * n;
    if q >= n {
      MulMonotone(n, q, m);
    }
  }

  /** The wall photo stretched to the container, sampled at a container pixel. */
  function WallAt(img: Bitmap, viewWidth: nat, viewHeight: nat, row: nat, col: nat): Rgb
    requires img.Decoded() && row < viewHeight && col < viewWidth
  {
    img.At(ScaledIndex(col, viewWidth, img.width), ScaledIndex(row, viewHeight, img.height))
  }

  /**
   * One overlay pixel as the overlay derives it: the stretched wall
   * pixel where the mask is painted and a wall photo is loaded, see-through
   * everywhere else.
   */
  function OverlayCell(img: Option<Bitmap>, masked: bool, viewWidth: nat, viewHeight: nat, row: nat, col: nat): Pixel
    requires img.Some? ==> img.value.Decoded()
    requires row < viewHeight && col < viewWidth
  {
    if masked && img.Some? then Opaque(WallAt(img.value, viewWidth, viewHeight, row, col)) else Transparent
  }

  class Preview {
    /** Container size in pixels; the mask and overlay cover it exactly. */
    const viewWidth: nat
    const viewHeight: nat
    /** Occlusion mask: true where painted. */
    const mask: array2<bool>
    /** The wall-over-artwork overlay derived from the mask. */
    const overlay: array2<Pixel>

    /** The decoded wall photo, absent until one is uploaded. */
    var wallImage: Option<Bitmap>
    var position: Anchor.Position
    var isDragging: bool
    var isPainting: bool
    var isOcclusionMode: bool
    var isErasing: bool
    /** Perspective: rotation about the vertical axis (-30..30) and tilt (-15..15), in degrees. */
    var wallAngle: int
    var verticalTilt: int
    /** The estimator's suggestion, absent until first computed. */
    var detectedAngle: Option<int>
    var lightingTint: Lighting.Tint

    ghost predicate Shaped()
      reads this
    {
      mask.Length0 == viewHeight && mask.Length1 == viewWidth &&
      overlay.Length0 == viewHeight && overlay.Length1 == viewWidth
    }

    /** Whether the overlay currently shows the wall exactly where the mask is painted. */
    ghost predicate OverlayMatchesMask()
      reads this, mask, overlay
      requires Shaped() && (wallImage.Some? ==> wallImage.value.Decoded())
    {
      forall r, c :: 0 <= r < viewHeight && 0 <= c < viewWidth ==>
        overlay[r, c] == OverlayCell(wallImage, mask[r, c], viewWidth, viewHeight, r, c)
    }

    ghost predicate MaskEmpty()
      reads this, mask
      requires Shaped()
    {
      forall r, c :: 0 <= r < viewHeight && 0 <= c < viewWidth ==> !mask[r, c]
    }

    /**
     * The session invariant: mask and overlay cover the container, the
     * anchor and the perspective stay within their bounds, a suggested
     * angle lies in [-15, 15], the tint is in range, nothing is painted
     * while no wall photo is loaded, and the overlay always reflects the
     * mask.
     */
    ghost predicate Valid()
      reads this, mask, overlay
    {
      Shaped() &&
      Anchor.InBounds(position) &&
      -30 <= wallAngle <= 30 && -15 <= verticalTilt <= 15 &&
      (detectedAngle.Some? ==> -15 <= detectedAngle.value <= 15) &&
      Lighting.TintInRange(lightingTint) &&
      (wallImage.Some? ==> wallImage.value.Decoded()) &&
      (wallImage.None? ==> MaskEmpty()) &&
      OverlayMatchesMask()
    }

    /** A freshly mounted preview of the given container size: no photo, centred anchor, neutral settings, empty mask. */
    constructor (width: nat, height: nat)
      ensures Valid() && fresh(mask) && fresh(overlay)
      ensures viewWidth == width && viewHeight == height
      ensures wallImage == None && position == Anchor.DefaultPosition
      ensures !isDragging && !isPainting && !isOcclusionMode && !isErasing
      ensures wallAngle == 0 && verticalTilt == 0 && detectedAngle == None
      ensures lightingTint == Lighting.Tint(1.0, 0.0)
      ensures MaskEmpty()
    {
      viewWidth, viewHeight := width, height;
      mask := new bool[height, width]((r, c) => false);
      overlay := new Pixel[height, width]((r, c) => Transparent);
      wallImage := None;
      position := Anchor.DefaultPosition;
      isDragging, isPainting, isOcclusionMode, isErasing := false, false, false, false;
      wallAngle, verticalTilt := 0, 0;
      detectedAngle := None;
      lightingTint := Lighting.Tint(1.0, 0.0);
    }

    /**
     * Stamps the brush disc at container coordinates (x, y) onto the mask:
     * covered cells become opaque, or transparent when erasing.
     */
    method Stamp(x: real, y: real, erasing: bool)
      requires Shaped()
      modifies mask
      ensures forall r, c :: 0 <= r < viewHeight && 0 <= c < viewWidth ==>
                mask[r, c] == Stroke(old(mask[r, c]), InBrush(c, r, x, y), erasing)
    {
      var r := 0;
      while r < viewHeight
        invariant 0 <= r <= viewHeight
        invariant forall i, j :: 0 <= i < r && 0 <= j < viewWidth ==>
                    mask[i, j] == Stroke(old(mask[i, j]), InBrush(j, i, x, y), erasing)
        invariant forall i, j :: r <= i < viewHeight && 0 <= j < viewWidth ==> mask[i, j] == old(mask[i, j])
      {
        var c := 0;
        while c < viewWidth
          invariant 0 <= c <= viewWidth
          invariant forall i, j :: 0 <= i < r && 0 <= j < viewWidth ==>
                      mask[i, j] == Stroke(old(mask[i, j]), InBrush(j, i, x, y), erasing)
          invariant forall j :: 0 <= j < c ==> mask[r, j] == Stroke(old(mask[r, j]), InBrush(j, r, x, y), erasing)
          invariant forall i, j :: r <= i < viewHeight && 0 <= j < viewWidth && (i > r || j >= c) ==> mask[i, j] == old(mask[i, j])
        {
          if InBrush(c, r, x, y) {
            mask[r, c] := !erasing;
          }
          c := c + 1;
        }
        r := r + 1;
      }
    }

    /** Recomputes the overlay from the wall photo and the mask, pixel by pixel. */
    method UpdateOverlay()
      requires Shaped() && (wallImage.Some? ==> wallImage.value.Decoded())
      modifies overlay
      ensures OverlayMatchesMask()
    {
      var r := 0;
      while r < viewHeight
        invariant 0 <= r <= viewHeight
        invariant forall i, j :: 0 <= i < r && 0 <= j < viewWidth ==>
                    overlay[i, j] == OverlayCell(wallImage, mask[i, j], viewWidth, viewHeight, i, j)
      {
        var c := 0;
        while c < viewWidth
          invariant 0 <= c <= viewWidth
          invariant forall i, j :: 0 <= i < r && 0 <= j < viewWidth ==>
                      overlay[i, j] == OverlayCell(wallImage, mask[i, j], viewWidth, viewHeight, i, j)
          invariant forall j :: 0 <= j < c ==>
                      overlay[r, j] == OverlayCell(wallImage, mask[r, j], viewWidth, viewHeight, r, j)
        {
          overlay[r, c] := if mask[r, c] && wallImage.Some?
                           then Opaque(WallAt(wallImage.value, viewWidth, viewHeight, r, c))
                           else Transparent;
          c := c + 1;
        }
        r := r + 1;
      }
    }

    /**
     * Paints (or erases) one brush stamp at a pointer position, then
     * refreshes the overlay. Without a wall photo nothing happens.
     */
    method PaintMaskAt(clientX: real, clientY: real, container: Anchor.Rect)
      requires Valid()
      modifies mask, overlay
      ensures Valid()
      ensures wallImage.None? ==> forall r, c :: 0 <= r < viewHeight && 0 <= c < viewWidth ==> mask[r, c] == old(mask[r, c])
      ensures wallImage.Some? ==> forall r, c :: 0 <= r < viewHeight && 0 <= c < viewWidth ==>
                mask[r, c] == Stroke(old(mask[r, c]), InBrush(c, r, clientX - container.left, clientY - container.top), isErasing)
    {
      if wallImage.None? {
        return;
      }
      Stamp(clientX - container.left, clientY - container.top, isErasing);
      UpdateOverlay();
    }

    /** Sets every mask cell transparent, as `clearRect` over the whole mask does. */
    method EraseAll()
      requires Shaped()
      modifies mask
      ensures MaskEmpty()
    {
      var r := 0;
      while r < viewHeight
        invariant 0 <= r <= viewHeight
        invariant forall i, j :: 0 <= i < r && 0 <= j < viewWidth ==> !mask[i, j]
      {
        var c := 0;
        while c < viewWidth
          invariant 0 <= c <= viewWidth
          invariant forall i, j :: 0 <= i < r && 0 <= j < viewWidth ==> !mask[i, j]
          invariant forall j :: 0 <= j < c ==> !mask[r, j]
        {
          mask[r, c] := false;
          c := c + 1;
        }
        r := r + 1;
      }
    }

    /**
     * The Clear button: makes every mask cell transparent and refreshes
     * the overlay, which is then see-through everywhere. Its result does
     * not depend on the mask before, so clearing twice is clearing once.
     */
    method ClearMask()
      requires Valid()
      modifies mask, overlay
      ensures Valid() && MaskEmpty()
      ensures forall r, c :: 0 <= r < viewHeight && 0 <= c < viewWidth ==> overlay[r, c] == Transparent
    {
      EraseAll();
      UpdateOverlay();
    }

    /**
     * The wall photo set to `img` (or to none). A different photo re-runs
     * the container measurement: resizing the mask canvas empties it, and
     * the overlay is recomputed from the empty mask. Setting the photo
     * that is already shown changes nothing, so the painted mask stays.
     * The suggested angle and the tint are left as they were until the
     * estimator and the sampler next complete.
     */
    method SetWallImage(img: Option<Bitmap>)
      requires Valid()
      requires img.Some? ==> img.value.Decoded()
      modifies this, mask, overlay
      ensures Valid()
      ensures wallImage == img
      ensures img != old(wallImage) ==> MaskEmpty()
      ensures img == old(wallImage) ==> unchanged(mask) && unchanged(overlay)
      ensures position == old(position) && wallAngle == old(wallAngle) && verticalTilt == old(verticalTilt)
      ensures detectedAngle == old(detectedAngle) && lightingTint == old(lightingTint)
      ensures isDragging == old(isDragging) && isPainting == old(isPainting)
      ensures isOcclusionMode == old(isOcclusionMode) && isErasing == old(isErasing)
    {
      if img == wallImage {
        return;
      }
      EraseAll();
      wallImage := img;
      UpdateOverlay();
    }

    /**
     * Pointer pressed on the artwork or, in mask mode, on the painting
     * surface. In mask mode it starts a paint stroke with a first stamp
     * and never starts a drag; otherwise it starts dragging and leaves
     * the mask alone.
     */
    method PointerDown(clientX: real, clientY: real, container: Anchor.Rect)
      requires Valid()
      modifies this, mask, overlay
      ensures Valid()
      ensures wallImage == old(wallImage) && position == old(position)
      ensures wallAngle == old(wallAngle) && verticalTilt == old(verticalTilt)
      ensures detectedAngle == old(detectedAngle) && lightingTint == old(lightingTint)
      ensures isOcclusionMode == old(isOcclusionMode) && isErasing == old(isErasing)
      ensures old(isOcclusionMode) ==> isPainting && isDragging == old(isDragging)
      ensures old(isOcclusionMode) && wallImage.Some? ==> forall r, c :: 0 <= r < viewHeight && 0 <= c < viewWidth ==>
                mask[r, c] == Stroke(old(mask[r, c]), InBrush(c, r, clientX - container.left, clientY - container.top), isErasing)
      ensures !old(isOcclusionMode) ==> isDragging && isPainting == old(isPainting)
      ensures !(old(isOcclusionMode) && wallImage.Some?) ==>
                forall r, c :: 0 <= r < viewHeight && 0 <= c < viewWidth ==> mask[r, c] == old(mask[r, c])
    {
      if isOcclusionMode {
        isPainting := true;
        PaintMaskAt(clientX, clientY, container);
        return;
      }
      isDragging := true;
    }

    /**
     * Pointer moved over the container. While painting in mask mode it
     * stamps the mask and the anchor stays put; otherwise, while dragging,
     * the anchor follows the pointer (clamped to [10, 90]); otherwise
     * nothing changes.
     */
    method PointerMove(clientX: real, clientY: real, container: Anchor.Rect)
      requires Valid()
      requires container.width > 0.0 && container.height > 0.0
      modifies this, mask, overlay
      ensures Valid()
      ensures wallImage == old(wallImage)
      ensures wallAngle == old(wallAngle) && verticalTilt == old(verticalTilt)
      ensures detectedAngle == old(detectedAngle) && lightingTint == old(lightingTint)
      ensures isDragging == old(isDragging) && isPainting == old(isPainting)
      ensures isOcclusionMode == old(isOcclusionMode) && isErasing == old(isErasing)
      ensures isOcclusionMode && isPainting ==> position == old(position)
      ensures isOcclusionMode && isPainting && wallImage.Some? ==> forall r, c :: 0 <= r < viewHeight && 0 <= c < viewWidth ==>
                mask[r, c] == Stroke(old(mask[r, c]), InBrush(c, r, clientX - container.left, clientY - container.top), isErasing)
      ensures !(isOcclusionMode && isPainting && wallImage.Some?) ==>
                forall r, c :: 0 <= r < viewHeight && 0 <= c < viewWidth ==> mask[r, c] == old(mask[r, c])
      ensures !(isOcclusionMode && isPainting) ==>
                position == if isDragging then Anchor.PositionFromEvent(Some(container), clientX, clientY).value else old(position)
    {
      if isOcclusionMode && isPainting {
        PaintMaskAt(clientX, clientY, container);
        return;
      }
      if !isDragging {
        return;
      }
      var pos := Anchor.PositionFromEvent(Some(container), clientX, clientY);
      if pos.Some? {
        position := pos.value;
      }
    }

    /** Pointer released, left the container or was cancelled: ends any drag or stroke. */
    method PointerUp()
      requires Valid()
      modifies this
      ensures Valid()
      ensures !isDragging && !isPainting
      ensures wallImage == old(wallImage) && position == old(position)
      ensures wallAngle == old(wallAngle) && verticalTilt == old(verticalTilt)
      ensures detectedAngle == old(detectedAngle) && lightingTint == old(lightingTint)
      ensures isOcclusionMode == old(isOcclusionMode) && isErasing == old(isErasing)
    {
      isDragging := false;
      isPainting := false;
    }

    /** The Mask button: toggles mask mode and always switches the eraser off. Mask contents persist. */
    method ToggleMaskMode()
      requires Valid()
      modifies this
      ensures Valid()
      ensures isOcclusionMode == !old(isOcclusionMode) && !isErasing
      ensures isDragging == old(isDragging) && isPainting == old(isPainting)
      ensures wallImage == old(wallImage) && position == old(position)
      ensures wallAngle == old(wallAngle) && verticalTilt == old(verticalTilt)
      ensures detectedAngle == old(detectedAngle) && lightingTint == old(lightingTint)
    {
      isOcclusionMode := !isOcclusionMode;
      isErasing := false;
    }

    /** The Eraser button, offered only in mask mode. */
    method ToggleEraser()
      requires Valid() && isOcclusionMode
      modifies this
      ensures Valid()
      ensures isErasing == !old(isErasing) && isOcclusionMode
      ensures isDragging == old(isDragging) && isPainting == old(isPainting)
      ensures wallImage == old(wallImage) && position == old(position)
      ensures wallAngle == old(wallAngle) && verticalTilt == old(verticalTilt)
      ensures detectedAngle == old(detectedAngle) && lightingTint == old(lightingTint)
    {
      isErasing := !isErasing;
    }

    /** The wall-angle slider: -30 to 30 degrees in whole steps. */
    method SetWallAngle(v: int)
      requires Valid() && -30 <= v <= 30
      modifies this
      ensures Valid()
      ensures wallAngle == v && verticalTilt == old(verticalTilt)
      ensures position == old(position) && wallImage == old(wallImage) && detectedAngle == old(detectedAngle)
      ensures lightingTint == old(lightingTint) && isDragging == old(isDragging) && isPainting == old(isPainting)
      ensures isOcclusionMode == old(isOcclusionMode) && isErasing == old(isErasing)
    {
      wallAngle := v;
    }

    /** The tilt slider: -15 to 15 degrees in whole steps. */
    method SetVerticalTilt(v: int)
      requires Valid() && -15 <= v <= 15
      modifies this
      ensures Valid()
      ensures verticalTilt == v && wallAngle == old(wallAngle)
      ensures position == old(position) && wallImage == old(wallImage) && detectedAngle == old(detectedAngle)
      ensures lightingTint == old(lightingTint) && isDragging == old(isDragging) && isPainting == old(isPainting)
      ensures isOcclusionMode == old(isOcclusionMode) && isErasing == old(isErasing)
    {
      verticalTilt := v;
    }

    /**
     * Applies the suggested angle: the wall angle takes it when there is
     * one and is otherwise unchanged; the tilt is never touched.
     */
    method ApplyDetectedAngle()
      requires Valid()
      modifies this
      ensures Valid()
      ensures wallAngle == (if old(detectedAngle).Some? then old(detectedAngle).value else old(wallAngle))
      ensures verticalTilt == old(verticalTilt) && detectedAngle == old(detectedAngle)
      ensures position == old(position) && wallImage == old(wallImage) && lightingTint == old(lightingTint)
      ensures isDragging == old(isDragging) && isPainting == old(isPainting)
      ensures isOcclusionMode == old(isOcclusionMode) && isErasing == old(isErasing)
    {
      if detectedAngle.Some? {
        wallAngle := detectedAngle.value;
      }
    }

    /**
     * The estimator completing on `thumbnail`, the wall photo decoded and
     * scaled so that its longer side is 200 px. Without a wall photo it does
     * nothing. A very elongated photo can scale to a thumbnail with a side of
     * 0 px; reading its pixels then fails and no suggestion is set.
     */
    method DetectWallAngle(thumbnail: Bitmap)
      requires Valid() && thumbnail.Valid()
      modifies this
      ensures Valid()
      ensures detectedAngle == if wallImage.Some? && thumbnail.Decoded() then Some(AngleEstimator.DetectedAngle(thumbnail))
                               else old(detectedAngle)
      ensures wallAngle == old(wallAngle) && verticalTilt == old(verticalTilt)
      ensures position == old(position) && wallImage == old(wallImage) && lightingTint == old(lightingTint)
      ensures isDragging == old(isDragging) && isPainting == old(isPainting)
      ensures isOcclusionMode == old(isOcclusionMode) && isErasing == old(isErasing)
    {
      if wallImage.None? || thumbnail.width == 0 || thumbnail.height == 0 {
        return;
      }
      var angle := AngleEstimator.DetectAngle(thumbnail);
      detectedAngle := Some(angle);
    }

    /** The lighting sampler completing for the current photo and anchor. Without a wall photo it does nothing. */
    method SampleWallLighting()
      requires Valid()
      modifies this
      ensures Valid()
      ensures lightingTint == if wallImage.Some? then Lighting.LightingOf(wallImage.value, position) else old(lightingTint)
      ensures wallAngle == old(wallAngle) && verticalTilt == old(verticalTilt)
      ensures position == old(position) && wallImage == old(wallImage) && detectedAngle == old(detectedAngle)
      ensures isDragging == old(isDragging) && isPainting == old(isPainting)
      ensures isOcclusionMode == old(isOcclusionMode) && isErasing == old(isErasing)
    {
      if wallImage.None? {
        return;
      }
      var tint := Lighting.SampleWallLighting(wallImage.value, position);
      lightingTint := tint;
    }
  }
}
