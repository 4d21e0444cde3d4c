/**
 * Wall-angle estimation. A 3x3 Sobel operator runs over every interior
 * pixel of a (downscaled) wall bitmap; a pixel whose gradient magnitude
 * exceeds 50 grey levels is an edge. Edges are split by whether they lie
 * left of the horizontal midpoint, and the imbalance between the two
 * sides, scaled to 15 degrees and rounded, is the suggested wall angle.
 *
 * Grey levels are (R+G+B)/3. To stay in integers the gradients are taken
 * on channel sums, i.e. three times the grey gradients, so the threshold
 * test sqrt(gx^2 + gy^2) > 50 becomes (3gx)^2 + (3gy)^2 > 150^2.
 */
module AngleEstimator {

  import opened Pixels

  /** Gradient magnitude (grey levels) above which a pixel is an edge. */
  const EdgeThreshold: int := 50
  /** Degrees corresponding to an edge ratio of 1. */
  const AngleScale: int := 15

  /** Squared threshold in channel-sum units: (3 * 50)^2. */
  const ThresholdSq: int := (3 * EdgeThreshold) * (3 * EdgeThreshold)

  /** A pixel the Sobel kernel can be centred on: one pixel away from every border. */
  predicate Interior(bmp: Bitmap, x: int, y: int) {
    1 <= x < bmp.width - 1 && 1 <= y < bmp.height - 1
  }

  /** Channel sum of the pixel at offset (dx, dy) from an interior pixel. */
  function Near(bmp: Bitmap, x: int, y: int, dx: int, dy: int): int
    requires bmp.Valid() && Interior(bmp, x, y)
    requires -1 <= dx <= 1 && -1 <= dy <= 1
  {
    ChannelSum(bmp.At(x + dx, y + dy))
  }

  /** Horizontal Sobel response [-1 0 1; -2 0 2; -1 0 1], in channel-sum units. */
  function GradientX(bmp: Bitmap, x: int, y: int): int
    requires bmp.Valid() && Interior(bmp, x, y)
  {
    - Near(bmp, x, y, -1, -1) - 2 * Near(bmp, x, y, -1, 0) - Near(bmp, x, y, -1, 1)
    + Near(bmp, x, y, 1, -1) + 2 * Near(bmp, x, y, 1, 0) + Near(bmp, x, y, 1, 1)
  }

  /** Vertical Sobel response, the transpose of the horizontal kernel. */
  function GradientY(bmp: Bitmap, x: int, y: int): int
    requires bmp.Valid() && Interior(bmp, x, y)
  {
    - Near(bmp, x, y, -1, -1) - 2 * Near(bmp, x, y, 0, -1) - Near(bmp, x, y, 1, -1)
    + Near(bmp, x, y, -1, 1) + 2 * Near(bmp, x, y, 0, 1) + Near(bmp, x, y, 1, 1)
  }

  /** Squared gradient magnitude, nine times the grey-level value. */
  function MagnitudeSq(bmp: Bitmap, x: int, y: int): int
    requires bmp.Valid() && Interior(bmp, x, y)
  {
    var gx, gy := GradientX(bmp, x, y), GradientY(bmp, x, y);
    gx * gx + gy * gy
  }

  /** An edge pixel: squared gradient above (3 * 50)^2, i.e. magnitude above 50 grey levels. */
  predicate IsEdge(bmp: Bitmap, x: int, y: int)
    requires bmp.Valid() && Interior(bmp, x, y)
  {
    MagnitudeSq(bmp, x, y) > ThresholdSq
  }

  /** A pixel whose 3x3 neighbourhood has one uniform grey level is never an edge. */
  lemma UniformNeighbourhoodIsNotEdge(bmp: Bitmap, x: int, y: int)
    requires bmp.Valid() && Interior(bmp, x, y)
    requires forall dx, dy :: -1 <= dx <= 1 && -1 <= dy <= 1 ==> Near(bmp, x, y, dx, dy) == Near(bmp, x, y, 0, 0)
    ensures GradientX(bmp, x, y) == 0 && GradientY(bmp, x, y) == 0
    ensures !IsEdge(bmp, x, y)
  {
    var c := Near(bmp, x, y, 0, 0);
    assert Near(bmp, x, y, -1, -1) == c && Near(bmp, x, y, -1, 0) == c && Near(bmp, x, y, -1, 1) == c;
    assert Near(bmp, x, y, 1, -1) == c && Near(bmp, x, y, 1, 0) == c && Near(bmp, x, y, 1, 1) == c;
    assert Near(bmp, x, y, 0, -1) == c && Near(bmp, x, y, 0, 1) == c;
  }

  /**
   * Each kernel weighs four channel sums positively and four negatively,
   * so a response never exceeds 4 * 765 in either direction.
   */
  lemma GradientsBounded(bmp: Bitmap, x: int, y: int)
    requires bmp.Valid() && Interior(bmp, x, y)
    ensures -4 * 765 <= GradientX(bmp, x, y) <= 4 * 765
    ensures -4 * 765 <= GradientY(bmp, x, y) <= 4 * 765
  {
  }

  /** A detected edge pixel and its squared strength. */
  datatype Edge = Edge(x: int, y: int, strengthSq: int)

  function EdgeAt(bmp: Bitmap, x: int, y: int): Edge
    requires bmp.Valid() && Interior(bmp, x, y)
  {
    Edge(x, y, MagnitudeSq(bmp, x, y))
  }

  /** Scan order: row by row, left to right within a row. */
  predicate ScannedBefore(a: Edge, b: Edge) {
    a.y < b.y || (a.y == b.y && a.x < b.x)
  }

  /** Edges of row `y` in columns 1 .. x-1, in scan order. */
  function RowEdges(bmp: Bitmap, y: int, x: int): seq<Edge>
    requires bmp.Valid() && 1 <= y < bmp.height - 1
    requires x <= 1 || x < bmp.width
    decreases x
  {
    if x <= 1 then []
    else RowEdges(bmp, y, x - 1) + (if IsEdge(bmp, x - 1, y) then [EdgeAt(bmp, x - 1, y)] else [])
  }

  /** Edges of rows 1 .. y-1, in scan order. */
  function EdgesBefore(bmp: Bitmap, y: int): seq<Edge>
    requires bmp.Valid()
    requires y <= 1 || y < bmp.height
    decreases y
  {
    if y <= 1 then []
    else EdgesBefore(bmp, y - 1) + RowEdges(bmp, y - 1, bmp.width - 1)
  }

  /** Every edge pixel of the bitmap, in the order the scan finds them. */
  function EdgeList(bmp: Bitmap): seq<Edge>
    requires bmp.Valid()
  {
    EdgesBefore(bmp, bmp.height - 1)
  }

  /** The edges of a row prefix are exactly its edge pixels, in increasing column. */
  lemma {:induction false} RowEdgesExact(bmp: Bitmap, y: int, x: int)
    requires bmp.Valid() && 1 <= y < bmp.height - 1
    requires x <= 1 || x < bmp.width
    ensures forall e :: e in RowEdges(bmp, y, x) ==>
              e.y == y && e.x < x && Interior(bmp, e.x, e.y) && e == EdgeAt(bmp, e.x, e.y) && IsEdge(bmp, e.x, e.y)
    ensures forall c :: 1 <= c < x && c < bmp.width - 1 && IsEdge(bmp, c, y) ==> EdgeAt(bmp, c, y) in RowEdges(bmp, y, x)
    ensures InScanOrder(RowEdges(bmp, y, x))
    decreases x
  {
    if x > 1 {
      RowEdgesExact(bmp, y, x - 1);
    }
  }

  /** Every edge found in the rows before `y` is an interior edge pixel of one of those rows. */
  lemma {:induction false} EdgesBeforeSound(bmp: Bitmap, y: int)
    requires bmp.Valid()
    requires y <= 1 || y < bmp.height
    ensures forall e :: e in EdgesBefore(bmp, y) ==>
              e.y < y && Interior(bmp, e.x, e.y) && e == EdgeAt(bmp, e.x, e.y) && IsEdge(bmp, e.x, e.y)
    decreases y
  {
    if y > 1 {
      EdgesBeforeSound(bmp, y - 1);
      RowEdgesExact(bmp, y - 1, bmp.width - 1);
    }
  }

  /** Every interior edge pixel of the rows before `y` is found. */
  lemma {:induction false} EdgesBeforeComplete(bmp: Bitmap, y: int)
    requires bmp.Valid()
    requires y <= 1 || y < bmp.height
    ensures forall c, r :: Interior(bmp, c, r) && r < y && IsEdge(bmp, c, r) ==> EdgeAt(bmp, c, r) in EdgesBefore(bmp, y)
    decreases y
  {
    if y > 1 {
      EdgesBeforeComplete(bmp, y - 1);
      RowEdgesExact(bmp, y - 1, bmp.width - 1);
    }
  }

  /** The edges of the rows before `y` are found in scan order. */
  lemma {:induction false} EdgesBeforeOrdered(bmp: Bitmap, y: int)
    requires bmp.Valid()
    requires y <= 1 || y < bmp.height
    ensures InScanOrder(EdgesBefore(bmp, y))
    decreases y
  {
    if y > 1 {
      EdgesBeforeOrdered(bmp, y - 1);
      EdgesBeforeSound(bmp, y - 1);
      RowEdgesExact(bmp, y - 1, bmp.width - 1);
      ScanOrderConcat(EdgesBefore(bmp, y - 1), RowEdges(bmp, y - 1, bmp.width - 1), y - 1);
    }
  }

  /** Edges in scan order, each strictly before the next. */
  predicate InScanOrder(edges: seq<Edge>) {
    forall i, j :: 0 <= i < j < |edges| ==> ScannedBefore(edges[i], edges[j])
  }

  /** Rows scanned in order, followed by one later row scanned in order, stay in scan order. */
  lemma ScanOrderConcat(prev: seq<Edge>, row: seq<Edge>, r: int)
    requires InScanOrder(prev) && InScanOrder(row)
    requires forall e :: e in prev ==> e.y < r
    requires forall e :: e in row ==> e.y == r
    ensures InScanOrder(prev + row)
  {
    forall i, j | 0 <= i < j < |prev + row|
      ensures ScannedBefore((prev + row)[i], (prev + row)[j])
    {
      if j < |prev| {
      } else if i < |prev| {
        assert (prev + row)[i] in prev;
        assert (prev + row)[j] in row;
      } else {
        assert (prev + row)[i] == row[i - |prev|];
        assert (prev + row)[j] == row[j - |prev|];
      }
    }
  }

  /**
   * Only interior pixels are examined, and the list holds each edge pixel
   * exactly once: membership is "interior and over the threshold", and
   * the list is strictly ordered by scan position, so it has no repeats.
   */
  lemma EdgeListExact(bmp: Bitmap)
    requires bmp.Valid()
    ensures forall e :: e in EdgeList(bmp) ==> Interior(bmp, e.x, e.y) && e == EdgeAt(bmp, e.x, e.y) && IsEdge(bmp, e.x, e.y)
    ensures forall x, y :: Interior(bmp, x, y) && IsEdge(bmp, x, y) ==> EdgeAt(bmp, x, y) in EdgeList(bmp)
    ensures forall i, j :: 0 <= i < j < |EdgeList(bmp)| ==> ScannedBefore(EdgeList(bmp)[i], EdgeList(bmp)[j])
    ensures forall i, j :: 0 <= i < j < |EdgeList(bmp)| ==> EdgeList(bmp)[i] != EdgeList(bmp)[j]
  {
    EdgesBeforeSound(bmp, bmp.height - 1);
    EdgesBeforeComplete(bmp, bmp.height - 1);
    EdgesBeforeOrdered(bmp, bmp.height - 1);
  }

  /** Whether an edge counts as left of the midpoint `width / 2`. */
  predicate IsLeft(e: Edge, width: int) {
    2 * e.x < width
  }

  /** Number of edges left of the midpoint. */
  function CountLeft(edges: seq<Edge>, width: int): (n: nat)
    ensures n <= |edges|
  {
    if edges == [] then 0
    else CountLeft(edges[..|edges| - 1], width) + (if IsLeft(edges[|edges| - 1], width) then 1 else 0)
  }

  /** Number of edges at or right of the midpoint. */
  function CountRight(edges: seq<Edge>, width: int): (n: nat)
    ensures n <= |edges|
  {
    if edges == [] then 0
    else CountRight(edges[..|edges| - 1], width) + (if IsLeft(edges[|edges| - 1], width) then 0 else 1)
  }

  /** Every edge is counted on exactly one side. */
  lemma {:induction false} SidesPartitionEdges(edges: seq<Edge>, width: int)
    ensures CountLeft(edges, width) + CountRight(edges, width) == |edges|
  {
    if edges != [] {
      SidesPartitionEdges(edges[..|edges| - 1], width);
    }
  }

  /** Edge imbalance (right - left) / (right + left + 1), strictly inside (-1, 1). */
  function EdgeRatio(left: nat, right: nat): (ratio: real)
    ensures -1.0 < ratio < 1.0
    ensures (left == right <==> ratio == 0.0) && (left < right <==> ratio > 0.0)
  {
    var n := (right + left + 1) as real;
    var d := (right - left) as real;
    assert -n < d < n;
    assert d / n * n == d;
    d / n
  }

  /** JavaScript's `Math.round`: halves round towards positive infinity. */
  function RoundHalfUp(v: real): (k: int)
    ensures k as real - 0.5 <= v < k as real + 0.5
  {
    (v + 0.5).Floor
  }

  /** Rounded angle suggested by an edge ratio. */
  function AngleFromRatio(ratio: real): int {
    RoundHalfUp(ratio * AngleScale as real)
  }

  /** The scale maps ratio 1 to 15 degrees, -1 to -15 and 0 to 0. */
  lemma AngleScaleEndpoints()
    ensures AngleFromRatio(1.0) == 15 && AngleFromRatio(-1.0) == -15 && AngleFromRatio(0.0) == 0
  {
  }

  /**
   * The suggested angle for the given side counts. It lies in [-15, 15],
   * is zero when the sides balance (in particular with no edges at all),
   * and its sign follows the side with more edges.
   */
  function EstimateAngle(left: nat, right: nat): (angle: int)
    ensures -AngleScale <= angle <= AngleScale
    ensures left == right ==> angle == 0
    ensures left < right ==> angle >= 0
    ensures right < left ==> angle <= 0
  {
    var ratio := EdgeRatio(left, right);
    var scaled := ratio * 15.0;
    assert -15.0 < scaled < 15.0;
    AngleFromRatio(ratio)
  }

  /** One more edge on the right never lowers the estimate; one more on the left never raises it. */
  lemma EstimateMonotone(left: nat, right: nat)
    ensures EstimateAngle(left, right) <= EstimateAngle(left, right + 1)
    ensures EstimateAngle(left + 1, right) <= EstimateAngle(left, right)
  {
    RatioMonotone(left, right);
    RatioMonotone'(left, right);
  }

  lemma RatioMonotone(left: nat, right: nat)
    ensures EdgeRatio(left, right) <= EdgeRatio(left, right + 1)
  {
    var n1, n2 := (right + left + 1) as real, (right + left + 2) as real;
    var d1, d2 := (right - left) as real, (right + 1 - left) as real;
    assert d1 * n2 <= d2 * n1 by {
      assert d2 * n1 - d1 * n2 == (2 * left + 1) as real;
    }
    QuotientLe(d1, n1, d2, n2);
  }

  lemma RatioMonotone'(left: nat, right: nat)
    ensures EdgeRatio(left + 1, right) <= EdgeRatio(left, right)
  {
    var n1, n2 := (right + left + 2) as real, (right + left + 1) as real;
    var d1, d2 := (right - left - 1) as real, (right - left) as real;
    assert d1 * n2 <= d2 * n1 by {
      assert d2 * n1 - d1 * n2 == (2 * right + 1) as real;
    }
    QuotientLe(d1, n1, d2, n2);
  }

  /** a/b <= c/d follows from a*d <= c*b for positive b and d. */
  lemma QuotientLe(a: real, b: real, c: real, d: real)
    requires b > 0.0 && d > 0.0 && a * d <= c * b
    ensures a / b <= c / d
  {
    var p, q := a / b, c / d;
    assert p * b == a && q * d == c;
    assert p * b * d <= q * d * b;
  }

  /** The angle the estimator suggests for a bitmap. */
  function DetectedAngle(bmp: Bitmap): (angle: int)
    requires bmp.Valid()
    ensures -AngleScale <= angle <= AngleScale
  {
    var edges := EdgeList(bmp);
    EstimateAngle(CountLeft(edges, bmp.width), CountRight(edges, bmp.width))
  }

  /** A bitmap without a single edge pixel suggests no rotation. */
  lemma FlatImageSuggestsZero(bmp: Bitmap)
    requires bmp.Valid()
    requires forall x, y :: Interior(bmp, x, y) ==> !IsEdge(bmp, x, y)
    ensures DetectedAngle(bmp) == 0
  {
    EdgeListExact(bmp);
  }

  /** The inner loop of the scan: the interior pixels of row `y`, left to right, appended to `found`. */
  method ScanRow(bmp: Bitmap, y: int, found: seq<Edge>) returns (edges: seq<Edge>)
    requires bmp.Valid() && 1 <= y < bmp.height - 1
    ensures edges == found + RowEdges(bmp, y, bmp.width - 1)
  {
    edges := found;
    var x := 1;
    while x < bmp.width - 1
      invariant 1 <= x && (x <= 1 || x < bmp.width)
      invariant edges == found + RowEdges(bmp, y, x)
    {
      var gx := GradientX(bmp, x, y);
      var gy := GradientY(bmp, x, y);
      if gx * gx + gy * gy > ThresholdSq {
        edges := edges + [Edge(x, y, gx * gx + gy * gy)];
      }
      x := x + 1;
    }
  }

  /** The Sobel scan: every interior pixel, row by row, collecting the edges. */
  method ScanEdges(bmp: Bitmap) returns (edges: seq<Edge>)
    requires bmp.Valid()
    ensures edges == EdgeList(bmp)
  {
    edges := [];
    var y := 1;
    while y < bmp.height - 1
      invariant 1 <= y && (y <= 1 || y < bmp.height)
      invariant edges == EdgesBefore(bmp, y)
    {
      edges := ScanRow(bmp, y, edges);
      y := y + 1;
    }
  }

  /** Counts the edges on each side of the midpoint, one edge at a time. */
  method CountSides(edges: seq<Edge>, width: int) returns (left: nat, right: nat)
    ensures left == CountLeft(edges, width) && right == CountRight(edges, width)
    ensures left + right == |edges|
  {
    left, right := 0, 0;
    for i := 0 to |edges|
      invariant left == CountLeft(edges[..i], width) && right == CountRight(edges[..i], width)
    {
      assert edges[..i + 1][..i] == edges[..i];
      if 2 * edges[i].x < width {
        left := left + 1;
      } else {
        right := right + 1;
      }
    }
    assert edges[..|edges|] == edges;
    SidesPartitionEdges(edges, width);
  }

  /** The whole estimator on an already-decoded, downscaled bitmap. */
  method DetectAngle(bmp: Bitmap) returns (angle: int)
    requires bmp.Valid()
    ensures angle == DetectedAngle(bmp)
    ensures -AngleScale <= angle <= AngleScale
  {
    var edges := ScanEdges(bmp);
    var left, right := CountSides(edges, bmp.width);
    angle := EstimateAngle(left, right);
  }
}
