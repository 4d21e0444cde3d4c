/**
 * Ambient-lighting sampling near the artwork. An 11x11 grid of pixels,
 * spaced 10 pixels apart and centred on the anchor, is read from the wall
 * bitmap (every coordinate clamped into the bitmap). The average colour
 * of those 121 samples gives a brightness multiplier in [0.85, 1.10] and
 * a warm/cool temperature bias in [-0.15, 0.15].
 */
module Lighting {

  import opened Pixels
  import Anchor

  /** Half-width of the sampled square, in bitmap pixels. */
  const SampleRadius: int := 50
  /** Distance between neighbouring samples, in bitmap pixels. */
  const SampleStep: int := 10
  /** Samples per axis: -50, -40, ..., 50. */
  const SamplesPerAxis: nat := 11
  const SampleCount: nat := SamplesPerAxis * SamplesPerAxis

  datatype Tint = Tint(brightness: real, temperature: real)

  predicate TintInRange(t: Tint) {
    0.85 <= t.brightness <= 1.10 && -0.15 <= t.temperature <= 0.15
  }

  /** `max(0, min(n - 1, v))` for a positive extent `n`. */
  function ClampIndex(v: int, n: nat): (c: nat)
    requires n >= 1
    ensures c < n
    ensures 0 <= v < n ==> c == v
    ensures v < 0 ==> c == 0
    ensures v > n - 1 ==> c == n - 1
  {
    if v > n - 1 then n - 1 else if v < 0 then 0 else v
  }

  /** The pixel under an anchor, `floor(percent / 100 * extent)`. */
  function SampleCentre(percent: real, extent: nat): (c: int)
    ensures 0.0 <= percent < 100.0 && extent > 0 ==> 0 <= c < extent
  {
    FractionOfExtent(percent / 100.0, extent as real);
    (percent / 100.0 * extent as real).Floor
  }

  /** A fraction in [0, 1) of a positive extent lies in [0, extent). */
  lemma FractionOfExtent(f: real, e: real)
    ensures 0.0 <= f < 1.0 && e > 0.0 ==> 0.0 <= f * e < e
  {
    if 0.0 <= f < 1.0 && e > 0.0 {
      assert e - f * e == (1.0 - f) * e;
    }
  }

  /**
   * The k-th sampled pixel around the centre pixel (cx, cy): column offset
   * -50 + 10 * (k / 11), row offset -50 + 10 * (k % 11), each clamped into
   * the bitmap.
   */
  function GridCoord(img: Bitmap, cx: int, cy: int, k: nat): (c: (nat, nat))
    requires img.Decoded()
    ensures c.0 < img.width && c.1 < img.height
  {
    var dx := -SampleRadius + SampleStep * (k / SamplesPerAxis);
    var dy := -SampleRadius + SampleStep * (k % SamplesPerAxis);
    (ClampIndex(cx + dx, img.width), ClampIndex(cy + dy, img.height))
  }

  /** The 121 samples around the centre pixel (cx, cy), in the order the sampler visits them. */
  function GridSamples(img: Bitmap, cx: int, cy: int): (s: seq<Rgb>)
    requires img.Decoded()
    ensures |s| == SampleCount
  {
    seq(SampleCount, k requires 0 <= k < SampleCount =>
      var c := GridCoord(img, cx, cy, k); img.At(c.0, c.1))
  }

  /** The k-th sampled pixel for an anchor: the grid around the pixel under the anchor. */
  function SampleCoord(img: Bitmap, pos: Anchor.Position, k: nat): (c: (nat, nat))
    requires img.Decoded()
    ensures c.0 < img.width && c.1 < img.height
  {
    GridCoord(img, SampleCentre(pos.x, img.width), SampleCentre(pos.y, img.height), k)
  }

  /** The 121 samples for an anchor, in the order the sampler visits them. */
  function Samples(img: Bitmap, pos: Anchor.Position): (s: seq<Rgb>)
    requires img.Decoded()
    ensures |s| == SampleCount
  {
    GridSamples(img, SampleCentre(pos.x, img.width), SampleCentre(pos.y, img.height))
  }

  /**
   * Exactly 121 samples are read and each one comes from a coordinate
   * inside the bitmap: no sample can fall outside it.
   */
  lemma SamplesInBounds(img: Bitmap, pos: Anchor.Position)
    requires img.Decoded()
    ensures |Samples(img, pos)| == 121
    ensures forall k :: 0 <= k < 121 ==>
              var c := SampleCoord(img, pos, k);
              0 <= c.0 <= img.width - 1 && 0 <= c.1 <= img.height - 1 && Samples(img, pos)[k] == img.At(c.0, c.1)
  {
  }

  datatype Colour = Red | Green | Blue

  function Pick(p: Rgb, c: Colour): Channel {
    match c
    case Red => p.r
    case Green => p.g
    case Blue => p.b
  }

  /** Total of one channel over the first `n` pixels of a sequence. */
  function Total(s: seq<Rgb>, n: nat, c: Colour): int
    requires n <= |s|
  {
    if n == 0 then 0 else Total(s, n - 1, c) + Pick(s[n - 1], c)
  }

  lemma {:induction false} TotalBounds(s: seq<Rgb>, n: nat, c: Colour)
    requires n <= |s|
    ensures 0 <= Total(s, n, c) <= 255 * n
  {
    if n > 0 {
      TotalBounds(s, n - 1, c);
    }
  }

  /** The mean of one channel, in [0, 255] for a non-empty sample. */
  function Average(s: seq<Rgb>, c: Colour): (avg: real)
    requires |s| > 0
    ensures 0.0 <= avg <= 255.0
  {
    TotalBounds(s, |s|, c);
    var t, n := Total(s, |s|, c) as real, |s| as real;
    QuotientBound(t, n);
    t / n
  }

  /** A total of at most 255 per sample, divided by the sample count, is at most 255. */
  lemma QuotientBound(t: real, n: real)
    requires n > 0.0 && 0.0 <= t <= 255.0 * n
    ensures 0.0 <= t / n <= 255.0
  {
    var q := t / n;
    assert q * n == t;
    assert (255.0 - q) * n == 255.0 * n - t;
    MulSign(q, n);
    MulSign(255.0 - q, n);
  }

  /** A product with a positive factor has the sign of the other factor. */
  lemma MulSign(a: real, n: real)
    requires n > 0.0 && a * n >= 0.0
    ensures a >= 0.0
  {
    if a < 0.0 {
      assert false;
    }
  }

  /**
   * Brightness 0.85 + luma/255 * 0.25 and temperature (R - B)/255 * 0.15
   * for average channels in [0, 255]: both stay in their documented
   * ranges, and a neutral sample (equal red and blue) has no temperature.
   */
  function TintOf(avgR: real, avgG: real, avgB: real): (t: Tint)
    requires 0.0 <= avgR <= 255.0 && 0.0 <= avgG <= 255.0 && 0.0 <= avgB <= 255.0
    ensures TintInRange(t)
    ensures t.temperature == 0.0 <==> avgR == avgB
    ensures t.temperature > 0.0 <==> avgR > avgB
  {
    var luma := (avgR + avgG + avgB) / 3.0;
    Tint(0.85 + luma / 255.0 * 0.25, (avgR - avgB) / 255.0 * 0.15)
  }

  /** The tint the sampler derives for an anchor on a decoded bitmap. */
  function LightingOf(img: Bitmap, pos: Anchor.Position): (t: Tint)
    requires img.Decoded()
    ensures TintInRange(t)
  {
    var s := Samples(img, pos);
    TintOf(Average(s, Red), Average(s, Green), Average(s, Blue))
  }

  /** Brighter samples give a brighter tint: brightness rises with each channel. */
  lemma BrightnessMonotone(r1: real, g1: real, b1: real, r2: real, g2: real, b2: real)
    requires 0.0 <= r1 <= r2 <= 255.0 && 0.0 <= g1 <= g2 <= 255.0 && 0.0 <= b1 <= b2 <= 255.0
    ensures TintOf(r1, g1, b1).brightness <= TintOf(r2, g2, b2).brightness
  {
  }

  /** Mid grey (128, 128, 128) gives brightness 0.85 + 32/255, about 0.9755, and no temperature. */
  lemma MidGreyTint()
    ensures TintOf(128.0, 128.0, 128.0) == Tint(0.85 + 32.0 / 255.0, 0.0)
    ensures 0.9754 < TintOf(128.0, 128.0, 128.0).brightness < 0.9755
  {
  }

  /** A wall whose pixels all have equal red and blue gives temperature 0 wherever the anchor is. */
  lemma NeutralWallHasNoTemperature(img: Bitmap, pos: Anchor.Position)
    requires img.Decoded()
    requires forall i :: 0 <= i < |img.pixels| ==> img.pixels[i].r == img.pixels[i].b
    ensures LightingOf(img, pos).temperature == 0.0
  {
    var s := Samples(img, pos);
    forall k | 0 <= k < |s| ensures s[k].r == s[k].b {
      var c := SampleCoord(img, pos, k);
      NeutralPixel(img, c.0, c.1);
    }
    NeutralSamplesHaveNoTemperature(s);
  }

  lemma NeutralPixel(img: Bitmap, x: nat, y: nat)
    requires img.Decoded() && x < img.width && y < img.height
    requires forall i :: 0 <= i < |img.pixels| ==> img.pixels[i].r == img.pixels[i].b
    ensures img.At(x, y).r == img.At(x, y).b
  {
    RowMajorInRange(x, y, img.width, img.height);
  }

  lemma NeutralSamplesHaveNoTemperature(s: seq<Rgb>)
    requires |s| > 0
    requires forall k :: 0 <= k < |s| ==> s[k].r == s[k].b
    ensures TintOf(Average(s, Red), Average(s, Green), Average(s, Blue)).temperature == 0.0
  {
    NeutralTotals(s, |s|);
  }

  lemma {:induction false} NeutralTotals(s: seq<Rgb>, n: nat)
    requires n <= |s|
    requires forall k :: 0 <= k < |s| ==> s[k].r == s[k].b
    ensures Total(s, n, Red) == Total(s, n, Blue)
  {
    if n > 0 {
      NeutralTotals(s, n - 1);
    }
  }

  /** The sample at grid cell (i, j) is the clamped pixel at offset (-50 + 10i, -50 + 10j). */
  lemma SampleAtCell(img: Bitmap, cx: int, cy: int, i: nat, j: nat)
    requires img.Decoded() && i < SamplesPerAxis && j < SamplesPerAxis
    ensures 11 * i + j < |GridSamples(img, cx, cy)|
    ensures GridSamples(img, cx, cy)[11 * i + j]
         == img.At(ClampIndex(cx + (-50 + 10 * i), img.width), ClampIndex(cy + (-50 + 10 * j), img.height))
  {
    var k := 11 * i + j;
    assert k / 11 == i && k % 11 == j;
  }

  /**
   * One step of the sampler: the pixel read at grid cell (i, j) is sample
   * number k = 11i + j, so adding it extends each running total by one sample.
   */
  lemma SampleCellStep(img: Bitmap, cx: int, cy: int, dx: int, dy: int, i: nat, j: nat, k: nat, s: seq<Rgb>, pixel: Rgb)
    requires img.Decoded() && i < 11 && j < 11 && k == 11 * i + j && s == GridSamples(img, cx, cy)
    requires dx == -50 + 10 * i && dy == -50 + 10 * j
    requires pixel == img.At(ClampIndex(cx + dx, img.width), ClampIndex(cy + dy, img.height))
    ensures k < |s| && pixel == s[k]
    ensures Total(s, k + 1, Red) == Total(s, k, Red) + pixel.r
    ensures Total(s, k + 1, Green) == Total(s, k, Green) + pixel.g
    ensures Total(s, k + 1, Blue) == Total(s, k, Blue) + pixel.b
  {
    SampleAtCell(img, cx, cy, i, j);
  }

  /** Once all 121 samples are added up, the totals divided by the count are the averages. */
  lemma AveragesOfAllSamples(s: seq<Rgb>, totalR: int, totalG: int, totalB: int, count: int)
    requires |s| == count > 0
    requires totalR == Total(s, count, Red) && totalG == Total(s, count, Green) && totalB == Total(s, count, Blue)
    ensures totalR as real / count as real == Average(s, Red)
    ensures totalG as real / count as real == Average(s, Green)
    ensures totalB as real / count as real == Average(s, Blue)
  {
  }

  /**
   * One step of the sampler: read the clamped pixel at offset (dx, dy) and
   * add its channels to the running totals, which then cover sample k + 1.
   */
  method AddSample(img: Bitmap, sampleX: int, sampleY: int, dx: int, dy: int, ghost s: seq<Rgb>,
                   ghost i: nat, ghost j: nat, ghost k: nat,
                   totalR0: int, totalG0: int, totalB0: int) returns (totalR: int, totalG: int, totalB: int)
    requires img.Decoded() && s == GridSamples(img, sampleX, sampleY) && i < 11 && j < 11 && k == 11 * i + j
    requires dx == -50 + 10 * i && dy == -50 + 10 * j
    requires totalR0 == Total(s, k, Red) && totalG0 == Total(s, k, Green) && totalB0 == Total(s, k, Blue)
    ensures totalR == Total(s, k + 1, Red) && totalG == Total(s, k + 1, Green) && totalB == Total(s, k + 1, Blue)
  {
    var x := ClampIndex(sampleX + dx, img.width);
    var y := ClampIndex(sampleY + dy, img.height);
    var pixel := img.At(x, y);
    SampleCellStep(img, sampleX, sampleY, dx, dy, i, j, k, s, pixel);
    totalR := totalR0 + pixel.r;
    totalG := totalG0 + pixel.g;
    totalB := totalB0 + pixel.b;
  }

  /**
   * The inner loop of the sampler: the eleven samples of column offset
   * `dx`, added to the running totals in row-offset order.
   */
  method SampleColumn(img: Bitmap, sampleX: int, sampleY: int, dx: int, ghost s: seq<Rgb>, ghost i: nat,
                      totalR0: int, totalG0: int, totalB0: int, count0: nat)
    returns (totalR: int, totalG: int, totalB: int, count: nat)
    requires img.Decoded() && s == GridSamples(img, sampleX, sampleY) && i < 11 && dx == -50 + 10 * i
    requires count0 == 11 * i
    requires totalR0 == Total(s, count0, Red) && totalG0 == Total(s, count0, Green) && totalB0 == Total(s, count0, Blue)
    ensures count == count0 + SamplesPerAxis
    ensures totalR == Total(s, count, Red) && totalG == Total(s, count, Green) && totalB == Total(s, count, Blue)
  {
    totalR, totalG, totalB, count := totalR0, totalG0, totalB0, count0;
    var dy := -SampleRadius;
    ghost var j := 0;
    while dy <= SampleRadius
      invariant 0 <= j <= 11 && dy == -50 + 10 * j && count == 11 * i + j
      invariant totalR == Total(s, count, Red) && totalG == Total(s, count, Green) && totalB == Total(s, count, Blue)
    {
      totalR, totalG, totalB := AddSample(img, sampleX, sampleY, dx, dy, s, i, j, count, totalR, totalG, totalB);
      count := count + 1;
      dy := dy + SampleStep;
      j := j + 1;
    }
  }

  /**
   * The sampler as the component runs it: two nested loops over the
   * offsets, reading one clamped pixel per step and accumulating the
   * channel totals and the sample count.
   */
  method SampleWallLighting(img: Bitmap, pos: Anchor.Position) returns (tint: Tint)
    requires img.Decoded()
    ensures tint == LightingOf(img, pos)
    ensures TintInRange(tint)
  {
    var sampleX := SampleCentre(pos.x, img.width);
    var sampleY := SampleCentre(pos.y, img.height);
    ghost var s := GridSamples(img, sampleX, sampleY);
    var totalR, totalG, totalB, count := 0, 0, 0, 0;
    var dx := -SampleRadius;
    ghost var i := 0;
    while dx <= SampleRadius
      invariant 0 <= i <= 11 && dx == -50 + 10 * i
      invariant count == 11 * i
      invariant totalR == Total(s, count, Red) && totalG == Total(s, count, Green) && totalB == Total(s, count, Blue)
    {
      totalR, totalG, totalB, count := SampleColumn(img, sampleX, sampleY, dx, s, i, totalR, totalG, totalB, count);
      dx := dx + SampleStep;
      i := i + 1;
    }
    assert count == 121;
    AveragesOfAllSamples(s, totalR, totalG, totalB, count);
    var avgR := totalR as real / count as real;
    var avgG := totalG as real / count as real;
    var avgB := totalB as real / count as real;
    tint := TintOf(avgR, avgG, avgB);
  }
}
