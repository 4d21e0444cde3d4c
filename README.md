# Wall preview engine: a Dafny model

This project models the engine behind the wall-art preview. A user uploads a photo of a wall, picks an artwork and a physical size, and drags the artwork into place. The engine then does four jobs:

- It maps the size category (centimetres) to on-screen pixels through a 350 cm reference wall.
- It suggests a wall angle from a Sobel edge count over a copy of the photo scaled so that its longer side is 200 px.
- It tints the artwork with the average colour sampled around its anchor.
- It keeps an occlusion mask. The user paints this mask, and the photo shows through it, above the artwork.

Modules, one per component:

- `Pixels` (`pixels.dfy`): decoded bitmaps, stored as rows of RGB triples with 8-bit channels.
- `WallSizes` (`wall_sizes.dfy`): the five size categories, the reference wall width and the size table.
- `Anchor` (`anchor.dfy`): converts a pointer position into an anchor, in percent of the container, clamped to [10, 90].
- `AngleEstimator` (`angle_estimator.dfy`): the Sobel scan, the left/right edge counts and the rounded angle estimate. The scan and the count are loops, proved equal to the specification functions `EdgeList`, `CountLeft` and `CountRight`.
- `Lighting` (`lighting.dfy`): the 11x11 clamped sampling grid, the averages, and the brightness and temperature formulas. The sampler is a loop, proved equal to `LightingOf`.
- `Render` (`render.dfy`): the values derived on every render. These are the artwork size, the shadow offset, the side-edge flags and the conditions of the lighting filter.
- `WallPreview` (`wall_preview.dfy`): the class `Preview`. It holds the component's state: the anchor, the four interaction flags, the perspective angles, the suggested angle, the tint, and the mask and overlay as `array2`s. Its methods are the pointer handlers and the buttons. Its invariant `Valid()` keeps the anchor and the angles in bounds. It also keeps the mask empty while no photo is loaded, and the overlay equal to the mask-clipped photo after every action.

Grey levels are handled in integers. The Sobel gradients are taken on channel sums (three times the grey value). So the test `sqrt(gx² + gy²) > 50` becomes `(3gx)² + (3gy)² > 150²`, which is exactly equivalent in exact arithmetic. `Math.round` is modelled as `floor(x + 1/2)`.

Behaviour of the component worth knowing:

- Changing or removing the wall photo does not reset the suggested angle or the tint. They keep their old values until the estimator or the sampler completes again (`Preview.SetWallImage`). The mask, however, is emptied: the component re-measures the container, and resizing the mask canvas clears it. Setting the photo that is already shown is not a change, so no re-measurement runs and the mask is kept.
- Mask mode does not by itself stop the anchor from moving. `isDragging` can still be true when mask mode is switched on, for example when the Mask button is toggled from the keyboard in the middle of a drag. A pointer move that is not painting then still drags the anchor. `Preview.PointerMove` states the rule exactly as the code has it.
- Clearing the mask works in any mode (`Preview.ClearMask`). The Clear button that triggers it is rendered only in mask mode.
- The `size` property is typed as a size category (`xs`…`xl`). The page that hosts the preview passes `"small" | "medium" | "large"` instead (src/components/Visualizer.tsx:11, src/components/OptionsPanel.tsx:7). Those are not keys of the size table. So `WALL_ART_SIZES[size]` (src/components/WallPreview.tsx:322) is `undefined`, and reading its `width` on the next line throws a `TypeError`. This happens on the first render, because the hosting page starts with `"medium"`. The model takes a `WallArtSize` and looks it up in a total table.

## Model

| member | source | states |
|---|---|---|
| `Pixels.ChannelSum` | src/components/WallPreview.tsx:61 | the channel sum behind a grey level lies in [0, 765] |
| `WallSizes.Dimensions` | src/config/wallSizes.ts:11-17 | the size table is total over the five categories; every entry has positive width and height, is portrait (height > width), and carries the upper-cased record key as its label |
| `WallSizes.CatalogueIsComplete` | src/config/wallSizes.ts:1 | there are exactly five categories; the catalogue lists each one once |
| `WallSizes.DimensionsIncrease` | src/config/wallSizes.ts:12-16 | widths (30 < 40 < 50 < 70 < 100) and heights (40 < 50 < 70 < 100 < 140) both increase strictly from xs to xl |
| `WallSizes.LabelsDistinct` | src/config/wallSizes.ts:12-16 | distinct categories have distinct labels and distinct keys |
| `Anchor.Clamp` | src/components/WallPreview.tsx:187-188 | `max(lo, min(hi, v))` lands in [lo, hi]; it is the identity inside the range and gives the nearer bound outside it |
| `Anchor.PositionFromEvent` | src/components/WallPreview.tsx:181-190 | no anchor without a mounted container; otherwise each axis is the pointer's percentage offset in the container's box, clamped; the result is always in [10, 90] on both axes, whatever the pointer coordinates |
| `Anchor.PointerInsideIsExact` | src/components/WallPreview.tsx:184-188 | a pointer within the central 80% of the container's width gives exactly its own percentage: clamping acts only outside that band |
| `Anchor.PositionMonotone` | src/components/WallPreview.tsx:184-188 | moving the pointer right or down never moves the anchor left or up |
| `Anchor.ClampIdempotent` | src/components/WallPreview.tsx:187-188 | clamping an already clamped value changes nothing |
| `AngleEstimator.GradientX` | src/components/WallPreview.tsx:63-73 | the horizontal Sobel response [−1 0 1; −2 0 2; −1 0 1] over the 3×3 neighbourhood, taken on channel sums, so three times the grey-level `gx` |
| `AngleEstimator.GradientY` | src/components/WallPreview.tsx:63-74 | the vertical Sobel response (the transposed kernel) on channel sums, three times the grey-level `gy` |
| `AngleEstimator.GradientsBounded` | src/components/WallPreview.tsx:73-74 | each response lies in [−3060, 3060]: four channel sums weigh in positively and four negatively |
| `AngleEstimator.IsEdge` | src/components/WallPreview.tsx:75-77 | a pixel is an edge when gx² + gy² in channel-sum units exceeds 150², which is `sqrt(gx² + gy²) > 50` in grey levels |
| `AngleEstimator.UniformNeighbourhoodIsNotEdge` | src/components/WallPreview.tsx:61-77 | a pixel whose 3×3 neighbourhood has one grey level has both gradients 0 and is not an edge |
| `AngleEstimator.EdgesBeforeSound` | src/components/WallPreview.tsx:56-82 | every edge found in the rows scanned so far is an interior pixel of those rows, over the threshold, recorded with its own squared strength |
| `AngleEstimator.EdgesBeforeComplete` | src/components/WallPreview.tsx:56-82 | every interior edge pixel of the rows scanned so far has been found |
| `AngleEstimator.EdgesBeforeOrdered` | src/components/WallPreview.tsx:56-82 | the edges found so far are in scan order: by row, then by column |
| `AngleEstimator.EdgeListExact` | src/components/WallPreview.tsx:56-82 | the scan's edge list holds exactly the interior pixels (1 ≤ x < w−1, 1 ≤ y < h−1) whose squared gradient exceeds the threshold; each appears once, in scan order |
| `AngleEstimator.ScanEdges` | src/components/WallPreview.tsx:56-82 | the nested Sobel loops produce exactly `EdgeList` |
| `AngleEstimator.ScanRow` | src/components/WallPreview.tsx:57-81 | the inner loop over one row appends exactly that row's edges, left to right, to those already found |
| `AngleEstimator.SidesPartitionEdges` | src/components/WallPreview.tsx:86-92 | every edge is counted on exactly one side: left + right = number of edges |
| `AngleEstimator.CountLeft` | src/components/WallPreview.tsx:86-92 | the number of edges with x < width/2 (written 2x < width), at most the number of edges |
| `AngleEstimator.CountRight` | src/components/WallPreview.tsx:86-92 | the number of edges with x ≥ width/2, at most the number of edges |
| `AngleEstimator.CountSides` | src/components/WallPreview.tsx:86-92 | the counting loop yields the left count (x < width/2) and the right count, and they add up to the number of edges |
| `AngleEstimator.EdgeRatio` | src/components/WallPreview.tsx:95 | the edge ratio lies strictly in (−1, 1); it is 0 exactly when the sides balance and positive exactly when the right side has more edges |
| `AngleEstimator.RoundHalfUp` | src/components/WallPreview.tsx:98 | `Math.round(v)` is the integer k with k − 1/2 ≤ v < k + 1/2 |
| `AngleEstimator.AngleScaleEndpoints` | src/components/WallPreview.tsx:95-98 | after scaling by 15 and rounding, a ratio of 1 gives 15, a ratio of −1 gives −15, and a ratio of 0 gives 0 |
| `AngleEstimator.EstimateAngle` | src/components/WallPreview.tsx:95-98 | the estimate lies in [−15, 15]; it is 0 when the sides balance (in particular with no edges); it never points away from the side with more edges, though a small imbalance can round to 0 |
| `AngleEstimator.EstimateMonotone` | src/components/WallPreview.tsx:95-98 | one more right edge never lowers the estimate; one more left edge never raises it |
| `AngleEstimator.FlatImageSuggestsZero` | src/components/WallPreview.tsx:56-98 | a bitmap with no edge pixel suggests 0 degrees |
| `AngleEstimator.DetectedAngle` | src/components/WallPreview.tsx:53-98 | the suggestion for a bitmap, `EstimateAngle` of the side counts of `EdgeList`; it lies in [−15, 15] |
| `AngleEstimator.DetectAngle` | src/components/WallPreview.tsx:53-98 | the whole estimator (scan, count, ratio, round) returns `DetectedAngle` of the bitmap, a value in [−15, 15] |
| `Lighting.SampleCentre` | src/components/WallPreview.tsx:119-120 | the anchor pixel `floor(percent / 100 · extent)`; for a percentage in [0, 100) and a non-empty extent it lies inside the bitmap |
| `Lighting.ClampIndex` | src/components/WallPreview.tsx:127-128 | a sample coordinate is clamped into [0, n − 1], never wrapped: one below 0 becomes 0, one above n − 1 becomes n − 1, and one already inside is kept |
| `Lighting.SampleCoord` | src/components/WallPreview.tsx:119-128 | the k-th sample point, offset (−50 + 10·(k div 11), −50 + 10·(k mod 11)) from the anchor pixel, lies inside the bitmap |
| `Lighting.Samples` | src/components/WallPreview.tsx:125-135 | the sampler reads 121 pixels |
| `Lighting.SamplesInBounds` | src/components/WallPreview.tsx:119-135 | exactly 121 samples are read, each at 0 ≤ x ≤ width−1 and 0 ≤ y ≤ height−1: no read falls outside the bitmap |
| `Lighting.Average` | src/components/WallPreview.tsx:137-139 | a channel average over the samples lies in [0, 255] |
| `Lighting.TintOf` | src/components/WallPreview.tsx:141-145 | for averages in [0, 255], brightness lies in [0.85, 1.10] and temperature in [−0.15, 0.15]; temperature is 0 exactly when average red equals average blue, and positive exactly when red exceeds blue |
| `Lighting.LightingOf` | src/components/WallPreview.tsx:119-145 | the tint derived for any anchor on any decoded bitmap is in range |
| `Lighting.BrightnessMonotone` | src/components/WallPreview.tsx:142 | brighter averages never give a darker brightness factor |
| `Lighting.MidGreyTint` | src/components/WallPreview.tsx:142-145 | mid grey (128, 128, 128) gives brightness 0.85 + 32/255 (between 0.9754 and 0.9755) and temperature 0 |
| `Lighting.NeutralWallHasNoTemperature` | src/components/WallPreview.tsx:137-145 | on a wall whose pixels all have red = blue (any grey in particular), the temperature is 0 wherever the anchor is |
| `Lighting.AddSample` | src/components/WallPreview.tsx:127-132 | reading the clamped pixel at one offset and adding its channels extends each running total from k samples of the grid to k + 1 |
| `Lighting.SampleColumn` | src/components/WallPreview.tsx:126-134 | the inner loop for one column offset counts eleven more samples and adds exactly the next eleven samples of the grid to the running channel totals |
| `Lighting.SampleWallLighting` | src/components/WallPreview.tsx:119-147 | the nested sampling loops, accumulating totals and a count, produce exactly `LightingOf`, and the result is in range |
| `Render.PixelsPerCm` | src/components/WallPreview.tsx:319-320 | pixels per centimetre times 350 is the container width; it is positive whenever the width is, and never a division by the container width |
| `Render.PaintingSize` | src/components/WallPreview.tsx:322-324 | the artwork takes the same fraction of the container as its real size takes of the 350 cm wall; its aspect ratio is the category's; it is portrait and non-empty for a positive width, and empty before layout |
| `Render.MediumOnSevenHundredPixels` | src/components/WallPreview.tsx:319-324 | category m on a 700 px container: 2 px per cm, so 100 × 140 px |
| `Render.PaintingSizeMonotone` | src/components/WallPreview.tsx:322-324 | a larger category is drawn strictly wider and taller |
| `Render.ShadowOffset` | src/components/WallPreview.tsx:327-328 | the shadow drops at least 5 px, and exactly 5 px while the anchor is at most 190/3 % down; for in-bounds anchors and angles it stays within ±19 px sideways and 9 px down; it is centred horizontally for a centred, unrotated artwork |
| `Render.VisibleEdges` | src/components/WallPreview.tsx:344-348 | side panels show only beyond ±3 degrees: the left one for positive angles, the right one for negative angles, never both; top and bottom flags follow the same rule for the tilt, but the component computes them and never draws a top or bottom panel (only the left and right flags are used, lines 471-492); a shown panel is wider than 0.9 px |
| `Render.LightingFilter` | src/components/WallPreview.tsx:330-335 | brightness always applies; sepia and hue rotation apply together, exactly when \|temperature\| > 0.05; the rotation is −5 degrees for warm and +5 degrees for cool; sepia is at most 0.03 for an in-range tint |
| `Render.RenderLayers` | src/components/WallPreview.tsx:319-348 | everything a render derives from the state: the anchor, `PaintingSize`, rotateY = wall angle, rotateX = tilt, `ShadowOffset`, `VisibleEdges`, `LightingFilter` and the frame flag |
| `Render.SizeIgnoresPerspective` | src/components/WallPreview.tsx:319-342 | changing the wall angle or the tilt never changes the artwork's size |
| `WallPreview.InBrush` | src/components/WallPreview.tsx:262-265 | the brush disc of radius 10 covers a cell when the cell's centre lies within 10 px of the pointer |
| `WallPreview.Stroke` | src/components/WallPreview.tsx:261-265 | one stamp on one mask cell: a covered cell becomes painted (`source-over`) or clear (`destination-out`); an uncovered cell keeps its value |
| `WallPreview.StrokeIdempotent` | src/components/WallPreview.tsx:261-265 | stamping the same spot twice with the same tool equals stamping once (a move event reaches both the painting surface and the container) |
| `WallPreview.PaintThenEraseClears` | src/components/WallPreview.tsx:261-265 | painting a stamp and then erasing the same stamp leaves the covered cells transparent and the rest as before |
| `WallPreview.BrushIsLocal` | src/components/WallPreview.tsx:263 | a stamp reaches only cells whose centre is within 10 px of the pointer on each axis |
| `WallPreview.ScaledIndex` | src/components/WallPreview.tsx:298 | stretching the photo to the container always samples an existing photo pixel |
| `WallPreview.OverlayCell` | src/components/WallPreview.tsx:297-302 | one overlay pixel: the stretched wall pixel where the mask is painted and a photo is loaded, transparent elsewhere |
| `WallPreview.Preview.constructor` | src/components/WallPreview.tsx:19-30 | initial state: no photo, anchor (50, 50), all flags off, angles 0, no suggestion, tint (1, 0), empty mask |
| `WallPreview.Preview.Stamp` | src/components/WallPreview.tsx:261-265 | cells covered by the disc of radius 10 become opaque, or transparent when erasing; every other cell keeps its value |
| `WallPreview.Preview.UpdateOverlay` | src/components/WallPreview.tsx:286-303 | afterwards each overlay pixel is the stretched wall pixel where the mask is painted and a photo is loaded, and transparent elsewhere |
| `WallPreview.Preview.PaintMaskAt` | src/components/WallPreview.tsx:250-268 | without a photo the mask is unchanged; otherwise one stamp is applied at the pointer's container coordinates with the current tool, and the overlay follows |
| `WallPreview.Preview.EraseAll` | src/components/WallPreview.tsx:311-314 | every mask cell becomes transparent |
| `WallPreview.Preview.ClearMask` | src/components/WallPreview.tsx:309-316 | the mask becomes empty and the overlay fully transparent, whatever came before, so clearing twice equals clearing once |
| `WallPreview.Preview.SetWallImage` | src/components/WallPreview.tsx:152-173 | a different photo (or none, after a photo) empties the mask and the overlay; setting the photo already shown leaves the mask and the overlay unchanged; in both cases the anchor, perspective, suggestion, tint and flags are unaffected |
| `WallPreview.Preview.PointerDown` | src/components/WallPreview.tsx:192-211 | in mask mode: painting starts, the first stamp is applied, and dragging is not started; otherwise: dragging starts and the mask is untouched; the anchor never moves |
| `WallPreview.Preview.PointerMove` | src/components/WallPreview.tsx:213-238 | while painting in mask mode the mask takes a stamp and the anchor stays; otherwise the mask is untouched and the anchor follows the clamped pointer only while dragging |
| `WallPreview.Preview.PointerUp` | src/components/WallPreview.tsx:240-248 | dragging and painting both end, nothing else changes; the result is independent of the flags before, so it is idempotent |
| `WallPreview.Preview.ToggleMaskMode` | src/components/WallPreview.tsx:357-360 | mask mode flips and the eraser is switched off; the mask is not in the frame, so its contents persist across toggles |
| `WallPreview.Preview.ToggleEraser` | src/components/WallPreview.tsx:370 | the eraser flips (offered only in mask mode) |
| `WallPreview.Preview.SetWallAngle` | src/components/WallPreview.tsx:393-400 | the wall angle takes the slider value in [−30, 30]; the tilt is untouched |
| `WallPreview.Preview.SetVerticalTilt` | src/components/WallPreview.tsx:404-411 | the tilt takes the slider value in [−15, 15]; the wall angle is untouched |
| `WallPreview.Preview.ApplyDetectedAngle` | src/components/WallPreview.tsx:175-179 | the wall angle takes the suggestion when there is one and is unchanged otherwise; the tilt is never touched; the invariant keeps the angle in [−30, 30] |
| `WallPreview.Preview.DetectWallAngle` | src/components/WallPreview.tsx:33-101 | with a photo loaded, the suggestion becomes the estimator's angle for the downscaled photo; without one, or when the downscaled photo has a side of 0 px (reading its pixels at line 50 throws), nothing changes |
| `WallPreview.Preview.SampleWallLighting` | src/components/WallPreview.tsx:104-150 | with a photo loaded, the tint becomes `LightingOf` the photo at the current anchor; without one, nothing changes |

## Left out

- `WallPreview.Preview.SetWallImage` compares decoded bitmaps. The component compares the photo's data-URL strings (the `[wallImage]` dependency at lines 152-159), so two different files that decode to the same pixels count as one photo in the model but as two in the code.
- Image decoding is not modelled: `Image` loading, `crossOrigin`, `onload`, `drawImage` and `getImageData`. Every operation takes an already decoded bitmap. A decoded photo has positive width and height (`Bitmap.Decoded`).
- The rescaling before edge detection is not modelled. The photo is scaled, up or down, so that its longer side is 200 px (src/components/WallPreview.tsx:44-47). `Preview.DetectWallAngle` takes the rescaled bitmap as its argument.
- The alpha channel of decoded pixels is not modelled. Only R, G and B take part in any formula.
- Floating point is not modelled. All arithmetic is exact (`int` and `real`), so rounding in `(R+G+B)/3`, in `sqrt` and in the real-valued formulas is ignored.
- The unused `Math.atan2` value is left out. Each edge record keeps its squared strength in channel-sum units, not the `sqrt` strength, which nothing reads.
- Canvas compositing is modelled abstractly. The anti-aliased `arc` fill becomes a pixel-centre disc test (`InBrush`), with binary mask cells. The `destination-in` and `destination-out` compositing becomes a per-cell rule (`Stroke`, `OverlayCell`). The smoothing that `drawImage` applies when it stretches the photo is replaced by nearest-neighbour sampling (`ScaledIndex`).
- React scheduling is not modelled. State updates take effect at once, and events are handled one at a time. The component re-runs the estimator and the sampler after every photo or anchor change. In the model these runs are the explicit methods `Preview.DetectWallAngle` and `Preview.SampleWallLighting`, not automatic steps of `SetWallImage` and `PointerMove`.
- The asynchronous gap between a photo being set and its decoded image object being ready is not modelled. The two are one field, `wallImage`. In the code, removing the photo does not clear the decoded object (src/components/WallPreview.tsx:277-284), but the old photo is never visible: removing it still re-measures the container, which empties the mask (lines 152-173), and no stroke can be painted without a photo (line 251), so the stale image is drawn only through an empty mask. The model's overlay shows no photo once it is removed.
- Container measurement is not modelled. The container size is fixed when a `Preview` is constructed, and the mask and overlay cover it from the start. The canvas default size of 300 × 150 before the first measurement, and resizing during a session, are not modelled.
- `preventDefault` on touch and mouse events is not modelled. Mouse and touch handlers share one method per phase, because their logic is the same.
- The event wiring is not modelled. In mask mode the painting surface (src/components/WallPreview.tsx:546-553, z-index 15) covers the artwork (z-index 10) and has mouse handlers but no touch handlers. So `handleTouchStart` (src/components/WallPreview.tsx:202-211) is never reached in mask mode, and a touch can never start a stroke. `Preview.PointerDown` models the handler's logic, which a mouse press does reach in mask mode.
- Presentation is not modelled: CSS transform, filter and feathering strings, the JSX layers, z-index and cursor styling.
- `Anchor.PositionFromEvent`: requires a container box with positive width and height. Pointer events reach the handlers only through the laid-out container, so a zero-size box (where JavaScript would divide by zero) is not modelled.
- `WallPreview.Preview.ToggleEraser`: requires mask mode, because the Eraser button is rendered only in mask mode.
- `WallPreview.Preview.SetWallAngle`: requires a value in [−30, 30], the range the slider enforces.
- `WallPreview.Preview.SetVerticalTilt`: requires a value in [−15, 15], the range the slider enforces.
- `WallPreview.Preview.PointerMove`: requires a container box with positive width and height, for the same reason as `Anchor.PositionFromEvent`.
- Photo upload (src/components/PhotoUploader.tsx), the artwork catalogue (src/components/PaintingSelector.tsx), the hosting page and the static sections are not part of this model. They hold no logic of the preview engine.
