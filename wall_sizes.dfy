/**
 * The physical size catalogue of the wall preview: five portrait
 * categories, each with a width and height in centimetres and a display
 * label, and the assumed real width of the photographed wall that backs
 * every centimetre-to-pixel conversion.
 */
module WallSizes {

  /** The size categories, smallest first. */
  datatype WallArtSize = XS | S | M | L | XL

  /** Assumed real-world width of the photographed wall: 3.5 metres. */
  const ReferenceWallWidthCm: nat := 350

  datatype WallArtDimension = WallArtDimension(width: nat, height: nat, displayLabel: string)

  /** Every category, in catalogue order. */
  const AllSizes: seq<WallArtSize> := [XS, S, M, L, XL]

  /** Position of a category in catalogue order. */
  function Rank(size: WallArtSize): (k: nat)
    ensures k < |AllSizes| && AllSizes[k] == size
  {
    match size
    case XS => 0
    case S => 1
    case M => 2
    case L => 3
    case XL => 4
  }

  /** The record key naming a category. */
  function Key(size: WallArtSize): string {
    match size
    case XS => "xs"
    case S => "s"
    case M => "m"
    case L => "l"
    case XL => "xl"
  }

  function UpperChar(c: char): char {
    if 'a' <= c <= 'z' then (c as int - 'a' as int + 'A' as int) as char else c
  }

  function Upper(s: string): (u: string)
    ensures |u| == |s|
  {
    seq(|s|, i requires 0 <= i < |s| => UpperChar(s[i]))
  }

  /**
   * The size table. It is a total function of the category: every
   * category has an entry, every entry is positive and portrait, and
   * its label is the upper-cased record key.
   */
  function Dimensions(size: WallArtSize): (d: WallArtDimension)
    ensures 0 < d.width < d.height
    ensures d.displayLabel == Upper(Key(size))
  {
    match size
    case XS => WallArtDimension(30, 40, "XS")
    case S => WallArtDimension(40, 50, "S")
    case M => WallArtDimension(50, 70, "M")
    case L => WallArtDimension(70, 100, "L")
    case XL => WallArtDimension(100, 140, "XL")
  }

  /** There are exactly five categories and the catalogue lists each once. */
  lemma CatalogueIsComplete(size: WallArtSize)
    ensures |AllSizes| == 5
    ensures size in AllSizes
    ensures forall i, j :: 0 <= i < j < |AllSizes| ==> AllSizes[i] != AllSizes[j]
  {
    assert AllSizes[Rank(size)] == size;
  }

  /** Widths and heights both grow strictly along the catalogue. */
  lemma DimensionsIncrease(a: WallArtSize, b: WallArtSize)
    requires Rank(a) < Rank(b)
    ensures Dimensions(a).width < Dimensions(b).width
    ensures Dimensions(a).height < Dimensions(b).height
  {
  }

  /** Distinct categories have distinct labels (and distinct keys). */
  lemma LabelsDistinct(a: WallArtSize, b: WallArtSize)
    requires a != b
    ensures Dimensions(a).displayLabel != Dimensions(b).displayLabel
    ensures Key(a) != Key(b)
  {
    var la, lb := Dimensions(a).displayLabel, Dimensions(b).displayLabel;
    if |la| == |lb| {
      assert la[0] != lb[0] || la[|la| - 1] != lb[|lb| - 1];
    }
  }
}
