/**
 * Decoded raster images as the preview engine reads them: a row-major
 * grid of RGB triples with 8-bit channels. Decoding (data URLs, `Image`
 * objects, canvas `getImageData`) happens outside this model; every
 * operation here starts from an already-decoded bitmap.
 */
module Pixels {

  /** One 8-bit colour channel. */
  type Channel = c: int | 0 <= c <= 255

  datatype Rgb = Rgb(r: Channel, g: Channel, b: Channel)

  /** Sum of the three channels: three times the grey level (R+G+B)/3. */
  function ChannelSum(p: Rgb): (s: int)
    ensures 0 <= s <= 765
  {
    p.r + p.g + p.b
  }

  /** A bitmap of `width` columns and `height` rows, stored row by row. */
  datatype Bitmap = Bitmap(width: nat, height: nat, pixels: seq<Rgb>) {

    predicate Valid() {
      |pixels| == width * height
    }

    /** A bitmap the browser has decoded from an image: never empty. */
    predicate Decoded() {
      Valid() && width >= 1 && height >= 1
    }

    /** The pixel in column `x` of row `y`. */
    function At(x: nat, y: nat): Rgb
      requires Valid() && x < width && y < height
    {
      RowMajorInRange(x, y, width, height);
      pixels[y * width + x]
    }
  }

  /** The row-major offset of an in-range cell lies inside the grid. */
  lemma RowMajorInRange(x: nat, y: nat, width: nat, height: nat)
    requires x < width && y < height
    ensures y * width + x < width * height
  {
    assert y * width <= (height - 1) * width by {
      MulMonotone(y, height - 1, width);
    }
  }

  lemma MulMonotone(a: nat, b: nat, c: nat)
    requires a <= b
    ensures a * c <= b * c
  {
  }
}
